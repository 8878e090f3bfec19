/** The reconciliation of the desired Docker Hub webhooks with the webhooks
    Docker Hub reports for each repository: every desired webhook whose
    callback URL is not yet registered is created (cmd/dockerhub_create.go). */
module DockerHubCreate {
  import opened Wrappers
  import opened DockerHubList

  /** The page size requested from a repository's webhook listing, and the
      largest reported count that is accepted. */
  const PageSize: int := 100

  /** `http.StatusCreated`, the one status that counts as a successful create. */
  const StatusCreated: int := 201

  /** One sub-webhook: a name and the callback URL. */
  datatype DockerHubWebhookModel = DockerHubWebhookModel(name: string, hookUrl: string)

  /** A webhook pipeline, as sent to and listed by Docker Hub. */
  datatype DockerHubWebhookWrapper = DockerHubWebhookWrapper(
    name: string, expectFinalCallback: bool, webhooks: seq<DockerHubWebhookModel>)

  /** One page of a repository's webhook listing. */
  datatype GetDockerHubWebhooksResponse = GetDockerHubWebhooksResponse(
    count: int, next: string, results: seq<DockerHubWebhookWrapper>)

  /** The parts of the URL library the payload builder relies on, left
      uninterpreted: whether a string parses as a URL, and the string form of
      the parsed URL `base` after its path has been replaced by `path`. */
  datatype UrlLibrary = UrlLibrary(parses: string -> bool, withPath: (string, string) -> string)

  /** The errors that end a reconciliation. */
  datatype CreateError =
    | MalformedBaseUrl(baseUrl: string)
    | ListingFailed(cause: string)
    | TooManyWebhooks
    | UnexpectedWebhookCount(repository: string, name: string)

  /** The outcome of one create request: a transport error, or an HTTP status and body. */
  datatype CreateResponse = TransportFailure(message: string) | HttpResponse(statusCode: int, body: string)

  /** One create request: the repository it is sent for and the payload. */
  datatype CreateCall = CreateCall(repository: string, webhook: DockerHubWebhookWrapper)

  /** A create request that failed, with the error that is logged for it. */
  datatype CreateFailure = CreateFailure(call: CreateCall, message: string)

  /** The error a create request yields: none exactly for a 201 answer. */
  function CreateWebhookError(response: CreateResponse): (r: Option<string>)
    ensures r.None? <==> response.HttpResponse? && response.statusCode == StatusCreated
    ensures response.TransportFailure? ==> r == Some(response.message)
  {
    match response
    case TransportFailure(message) => Some(message)
    case HttpResponse(status, body) =>
      if status != StatusCreated then Some("unexpected response from docker hub: " + body) else None
  }

  /** A webhook pipeline of the one shape the reconciler accepts: exactly one sub-webhook. */
  predicate SingleHook(w: DockerHubWebhookWrapper)
  {
    |w.webhooks| == 1
  }

  /** The callback URL of a webhook pipeline: that of its first sub-webhook.
      The reconciler reads it only from pipelines of the `SingleHook` shape;
      the empty string for a pipeline without sub-webhooks is never used. */
  function HookUrl(w: DockerHubWebhookWrapper): string
  {
    if w.webhooks == [] then "" else w.webhooks[0].hookUrl
  }

  /** The payload for one desired webhook: named after the receiver, with one
      sub-webhook of the same name whose URL is the base URL with its path
      replaced by the receiver's path, and no final callback expected. */
  function NewDockerHubWebhook(lib: UrlLibrary, baseUrl: string, webhook: RepositoryReceiver)
    : (r: Result<DockerHubWebhookWrapper, CreateError>)
    ensures r.Success? <==> lib.parses(baseUrl)
    ensures r.Failure? ==> r.error == MalformedBaseUrl(baseUrl)
    ensures r.Success? ==>
              && r.value.name == webhook.name
              && !r.value.expectFinalCallback
              && SingleHook(r.value)
              && r.value.webhooks[0].name == webhook.name
              && HookUrl(r.value) == lib.withPath(baseUrl, webhook.path)
  {
    if !lib.parses(baseUrl) then Failure(MalformedBaseUrl(baseUrl))
    else
      var hookUrl := lib.withPath(baseUrl, webhook.path);
      Success(DockerHubWebhookWrapper(webhook.name, false, [DockerHubWebhookModel(webhook.name, hookUrl)]))
  }

  /** A map lookup that yields the empty sequence for a missing key, as a Go
      map of slices does. */
  function Lookup<W>(m: map<string, seq<W>>, key: string): seq<W>
  {
    if key in m then m[key] else []
  }

  /** The repositories the desired webhooks are for. */
  function Repositories(targets: seq<RepositoryReceiver>): set<string>
  {
    set t | t in targets :: t.repository
  }

  /** Every payload of every group has one sub-webhook. */
  ghost predicate SingleHookGroups(groups: map<string, seq<DockerHubWebhookWrapper>>)
  {
    forall repository, w :: repository in groups && w in groups[repository] ==> SingleHook(w)
  }

  /** The payloads of the desired webhooks grouped by repository, or the first
      payload error. */
  function GroupPayloads(lib: UrlLibrary, baseUrl: string, targets: seq<RepositoryReceiver>)
    : (r: Result<map<string, seq<DockerHubWebhookWrapper>>, CreateError>)
    ensures r.Failure? <==> targets != [] && !lib.parses(baseUrl)
    ensures r.Failure? ==> r.error == MalformedBaseUrl(baseUrl)
    ensures r.Success? ==> r.value.Keys == Repositories(targets) && SingleHookGroups(r.value)
  {
    if targets == [] then Success(map[])
    else
      var target := targets[|targets| - 1];
      assert Repositories(targets) == Repositories(targets[..|targets| - 1]) + {target.repository} by {
        assert targets == targets[..|targets| - 1] + [target];
      }
      match GroupPayloads(lib, baseUrl, targets[..|targets| - 1])
      case Failure(e) => Failure(e)
      case Success(groups) =>
        match NewDockerHubWebhook(lib, baseUrl, target)
        case Failure(e) => Failure(e)
        case Success(w) => Success(groups[target.repository := Lookup(groups, target.repository) + [w]])
  }

  /** The desired webhooks for one repository, in input order. */
  function TargetsFor(targets: seq<RepositoryReceiver>, repository: string): seq<RepositoryReceiver>
  {
    if targets == [] then []
    else TargetsFor(targets[..|targets| - 1], repository)
         + (if targets[|targets| - 1].repository == repository then [targets[|targets| - 1]] else [])
  }

  /** The payloads built for a sequence of desired webhooks, in order. */
  function Payloads(lib: UrlLibrary, baseUrl: string, targets: seq<RepositoryReceiver>): seq<DockerHubWebhookWrapper>
    requires lib.parses(baseUrl)
  {
    if targets == [] then []
    else Payloads(lib, baseUrl, targets[..|targets| - 1])
         + [NewDockerHubWebhook(lib, baseUrl, targets[|targets| - 1]).value]
  }

  /** The callback URLs registered for a repository, or the error for the
      first listed entry without exactly one sub-webhook. */
  function ExistingUrls(repository: string, results: seq<DockerHubWebhookWrapper>): Result<set<string>, CreateError>
  {
    if results == [] then Success({})
    else
      match ExistingUrls(repository, results[..|results| - 1])
      case Failure(e) => Failure(e)
      case Success(urls) =>
        var w := results[|results| - 1];
        if |w.webhooks| != 1 then Failure(UnexpectedWebhookCount(repository, w.name))
        else Success(urls + {HookUrl(w)})
  }

  /** The create requests for the payloads whose callback URL is not
      registered; nothing else enters the comparison. */
  function MissingCalls(repository: string, urls: set<string>, payloads: seq<DockerHubWebhookWrapper>)
    : seq<CreateCall>
  {
    if payloads == [] then []
    else
      var w := payloads[|payloads| - 1];
      MissingCalls(repository, urls, payloads[..|payloads| - 1])
      + (if HookUrl(w) in urls then [] else [CreateCall(repository, w)])
  }

  /** The create requests for one repository, or the error that ends the run there. */
  function ReconcileRepository(
    repository: string, payloads: seq<DockerHubWebhookWrapper>,
    listing: Result<GetDockerHubWebhooksResponse, string>)
    : Result<seq<CreateCall>, CreateError>
  {
    match listing
    case Failure(cause) => Failure(ListingFailed(cause))
    case Success(resp) =>
      if resp.count > PageSize then Failure(TooManyWebhooks)
      else
        match ExistingUrls(repository, resp.results)
        case Failure(e) => Failure(e)
        case Success(urls) => Success(MissingCalls(repository, urls, payloads))
  }

  /** What one repository contributes to the run. */
  function StepFor(
    groups: map<string, seq<DockerHubWebhookWrapper>>,
    remote: string -> Result<GetDockerHubWebhooksResponse, string>, repository: string)
    : Result<seq<CreateCall>, CreateError>
  {
    ReconcileRepository(repository, Lookup(groups, repository), remote(repository))
  }

  /** The outcome `rest` of the remaining repositories, after the creates `done`. */
  function Continued(done: seq<CreateCall>, rest: (Option<CreateError>, seq<CreateCall>))
    : (Option<CreateError>, seq<CreateCall>)
  {
    (rest.0, done + rest.1)
  }

  /** The repositories processed in `order`: the create requests issued, and
      the error of the first repository that fails, after which nothing more
      is processed. */
  function ReconcileRepositories(
    groups: map<string, seq<DockerHubWebhookWrapper>>, order: seq<string>,
    remote: string -> Result<GetDockerHubWebhooksResponse, string>)
    : (Option<CreateError>, seq<CreateCall>)
  {
    if order == [] then (None, [])
    else
      match StepFor(groups, remote, order[0])
      case Failure(e) => (Some(e), [])
      case Success(calls) => Continued(calls, ReconcileRepositories(groups, order[1..], remote))
  }

  /** Continuing after `done` and then after `calls` is continuing after both. */
  lemma ContinuedAssociates(done: seq<CreateCall>, calls: seq<CreateCall>, rest: (Option<CreateError>, seq<CreateCall>))
    ensures Continued(done, Continued(calls, rest)) == Continued(done + calls, rest)
  {
    assert done + (calls + rest.1) == (done + calls) + rest.1;
  }

  /** One repository of the loop over repositories. */
  lemma ReconcileRepositoriesUnfold(
    groups: map<string, seq<DockerHubWebhookWrapper>>, order: seq<string>,
    remote: string -> Result<GetDockerHubWebhooksResponse, string>)
    requires order != []
    ensures StepFor(groups, remote, order[0]).Failure? ==>
              ReconcileRepositories(groups, order, remote) == (Some(StepFor(groups, remote, order[0]).error), [])
    ensures StepFor(groups, remote, order[0]).Success? ==>
              ReconcileRepositories(groups, order, remote)
              == Continued(StepFor(groups, remote, order[0]).value, ReconcileRepositories(groups, order[1..], remote))
  {
  }

  /** The outcome of a whole reconciliation: the error it returns, if any,
      and the create requests it issued, in order. */
  function Reconcile(
    lib: UrlLibrary, baseUrl: string, targets: seq<RepositoryReceiver>,
    remote: string -> Result<GetDockerHubWebhooksResponse, string>, order: seq<string>)
    : (r: (Option<CreateError>, seq<CreateCall>))
    ensures targets != [] && !lib.parses(baseUrl) ==> r == (Some(MalformedBaseUrl(baseUrl)), [])
  {
    match GroupPayloads(lib, baseUrl, targets)
    case Failure(e) => (Some(e), [])
    case Success(groups) => ReconcileRepositories(groups, order, remote)
  }

  /** The create requests that failed, the k-th request having been answered by `respond(k)`. */
  function FailedCreates(calls: seq<CreateCall>, respond: nat -> CreateResponse): seq<CreateFailure>
  {
    if calls == [] then []
    else
      FailedCreates(calls[..|calls| - 1], respond)
      + (match CreateWebhookError(respond(|calls| - 1))
         case Some(message) => [CreateFailure(calls[|calls| - 1], message)]
         case None => [])
  }

  /** `order` visits every key of the map once: the unspecified order of Go's
      map iteration. */
  predicate EnumeratesOnce(order: seq<string>, keys: set<string>)
  {
    && (forall i, j :: 0 <= i < j < |order| ==> order[i] != order[j])
    && (forall x :: x in order ==> x in keys)
    && (forall x :: x in keys ==> x in order)
  }

  /** Builds a payload per desired webhook and groups them by repository;
      then, repository by repository in the map's iteration order `order`,
      reads the registered webhooks (`remote`), aborts on a failed listing, on
      more webhooks than one page holds or on an entry without exactly one
      sub-webhook, and issues a create request for every payload whose URL is
      not registered. The k-th create request is answered by `respond(k)`; a
      failed create is only reported in `failures`. */
  method CreateMissingWebhooks(
    lib: UrlLibrary, baseUrl: string, targetWebhooks: seq<RepositoryReceiver>,
    remote: string -> Result<GetDockerHubWebhooksResponse, string>,
    order: seq<string>, respond: nat -> CreateResponse)
    returns (err: Option<CreateError>, creates: seq<CreateCall>, failures: seq<CreateFailure>)
    requires EnumeratesOnce(order, Repositories(targetWebhooks))
    ensures (err, creates) == Reconcile(lib, baseUrl, targetWebhooks, remote, order)
    ensures failures == FailedCreates(creates, respond)
  {
    var grouped := GroupWebhooks(lib, baseUrl, targetWebhooks);
    if grouped.Failure? {
      return Some(grouped.error), [], [];
    }
    err, creates, failures := CreateForRepositories(grouped.value, order, remote, respond);
  }

  /** The loop over the grouped payloads, one repository after another in
      `order`, stopping at the first repository that fails. */
  method CreateForRepositories(
    repositoryWebhooks: map<string, seq<DockerHubWebhookWrapper>>, order: seq<string>,
    remote: string -> Result<GetDockerHubWebhooksResponse, string>, respond: nat -> CreateResponse)
    returns (err: Option<CreateError>, creates: seq<CreateCall>, failures: seq<CreateFailure>)
    requires forall repository :: repository in order ==> repository in repositoryWebhooks
    requires SingleHookGroups(repositoryWebhooks)
    ensures (err, creates) == ReconcileRepositories(repositoryWebhooks, order, remote)
    ensures failures == FailedCreates(creates, respond)
  {
    creates, failures := [], [];
    var remaining := order;
    assert [] + ReconcileRepositories(repositoryWebhooks, order, remote).1
        == ReconcileRepositories(repositoryWebhooks, order, remote).1;
    while remaining != []
      invariant forall repository :: repository in remaining ==> repository in repositoryWebhooks
      invariant ReconcileRepositories(repositoryWebhooks, order, remote)
             == Continued(creates, ReconcileRepositories(repositoryWebhooks, remaining, remote))
      invariant failures == FailedCreates(creates, respond)
      decreases |remaining|
    {
      var repository := remaining[0];
      ReconcileRepositoriesUnfold(repositoryWebhooks, remaining, remote);
      ghost var before := creates;
      var e;
      e, creates, failures := CreateForRepository(
        repository, repositoryWebhooks[repository], remote(repository), respond, creates, failures);
      if e.Some? {
        assert creates + [] == creates;
        return e, creates, failures;
      }
      ContinuedAssociates(before, StepFor(repositoryWebhooks, remote, repository).value,
                          ReconcileRepositories(repositoryWebhooks, remaining[1..], remote));
      remaining := remaining[1..];
    }
    assert creates + [] == creates;
    return None, creates, failures;
  }

  /** One pass of the loop over repositories: checks the listing's count and
      shape, then issues the create requests for the payloads whose URL the
      listing does not have. */
  method CreateForRepository(
    repository: string, webhooks: seq<DockerHubWebhookWrapper>,
    listing: Result<GetDockerHubWebhooksResponse, string>,
    respond: nat -> CreateResponse, creates0: seq<CreateCall>, failures0: seq<CreateFailure>)
    returns (err: Option<CreateError>, creates: seq<CreateCall>, failures: seq<CreateFailure>)
    requires forall w :: w in webhooks ==> SingleHook(w)
    requires failures0 == FailedCreates(creates0, respond)
    ensures ReconcileRepository(repository, webhooks, listing).Failure? ==>
              err == Some(ReconcileRepository(repository, webhooks, listing).error)
              && creates == creates0 && failures == failures0
    ensures ReconcileRepository(repository, webhooks, listing).Success? ==>
              err == None && creates == creates0 + ReconcileRepository(repository, webhooks, listing).value
    ensures failures == FailedCreates(creates, respond)
  {
    var pageSize := PageSize;
    if listing.Failure? {
      return Some(ListingFailed(listing.error)), creates0, failures0;
    }
    var resp := listing.value;
    if resp.count > pageSize {
      return Some(TooManyWebhooks), creates0, failures0;
    }
    var urls := ExistingUrlSet(repository, resp.results);
    if urls.Failure? {
      return Some(urls.error), creates0, failures0;
    }
    creates, failures := IssueCreates(repository, urls.value, webhooks, respond, creates0, failures0);
    return None, creates, failures;
  }

  /** The first loop of the reconciler: one payload per desired webhook,
      appended to its repository's group; the first payload error is returned. */
  method GroupWebhooks(lib: UrlLibrary, baseUrl: string, targetWebhooks: seq<RepositoryReceiver>)
    returns (r: Result<map<string, seq<DockerHubWebhookWrapper>>, CreateError>)
    ensures r == GroupPayloads(lib, baseUrl, targetWebhooks)
  {
    var repositoryWebhooks: map<string, seq<DockerHubWebhookWrapper>> := map[];
    var i := 0;
    while i < |targetWebhooks|
      invariant 0 <= i <= |targetWebhooks|
      invariant GroupPayloads(lib, baseUrl, targetWebhooks[..i]) == Success(repositoryWebhooks)
    {
      var webhook := targetWebhooks[i];
      assert targetWebhooks[..i + 1][..i] == targetWebhooks[..i];
      var wrapper := NewDockerHubWebhook(lib, baseUrl, webhook);
      if wrapper.Failure? {
        GroupFailurePersists(lib, baseUrl, targetWebhooks[..i + 1], targetWebhooks[i + 1..]);
        assert targetWebhooks[..i + 1] + targetWebhooks[i + 1..] == targetWebhooks;
        return Failure(wrapper.error);
      }
      repositoryWebhooks := repositoryWebhooks[webhook.repository :=
        Lookup(repositoryWebhooks, webhook.repository) + [wrapper.value]];
      i := i + 1;
    }
    assert targetWebhooks[..i] == targetWebhooks;
    return Success(repositoryWebhooks);
  }

  /** The loop that collects a listing's callback URLs, returning on the first
      entry without exactly one sub-webhook. */
  method ExistingUrlSet(repository: string, results: seq<DockerHubWebhookWrapper>)
    returns (r: Result<set<string>, CreateError>)
    ensures r == ExistingUrls(repository, results)
  {
    var urls: set<string> := {};
    var j := 0;
    while j < |results|
      invariant 0 <= j <= |results|
      invariant ExistingUrls(repository, results[..j]) == Success(urls)
    {
      var webhook := results[j];
      assert results[..j + 1][..j] == results[..j];
      if |webhook.webhooks| != 1 {
        UrlsFailurePersists(repository, results[..j + 1], results[j + 1..]);
        assert results[..j + 1] + results[j + 1..] == results;
        return Failure(UnexpectedWebhookCount(repository, webhook.name));
      }
      urls := urls + {webhook.webhooks[0].hookUrl};
      j := j + 1;
    }
    assert results[..j] == results;
    return Success(urls);
  }

  /** The loop that issues a create request for every payload whose URL is
      not in `urls`, numbering the requests after those already issued and
      recording the failed ones. */
  method IssueCreates(
    repository: string, urls: set<string>, webhooks: seq<DockerHubWebhookWrapper>,
    respond: nat -> CreateResponse, creates0: seq<CreateCall>, failures0: seq<CreateFailure>)
    returns (creates: seq<CreateCall>, failures: seq<CreateFailure>)
    requires forall w :: w in webhooks ==> SingleHook(w)
    requires failures0 == FailedCreates(creates0, respond)
    ensures creates == creates0 + MissingCalls(repository, urls, webhooks)
    ensures failures == FailedCreates(creates, respond)
  {
    creates, failures := creates0, failures0;
    var m := 0;
    while m < |webhooks|
      invariant 0 <= m <= |webhooks|
      invariant creates == creates0 + MissingCalls(repository, urls, webhooks[..m])
      invariant failures == FailedCreates(creates, respond)
    {
      var webhook := webhooks[m];
      assert webhooks[..m + 1] == webhooks[..m] + [webhook];
      MissingCallsStep(repository, urls, webhooks[..m], webhook);
      assert webhook in webhooks;
      var u := webhook.webhooks[0].hookUrl;
      ghost var before := MissingCalls(repository, urls, webhooks[..m]);
      if u !in urls {
        var call := CreateCall(repository, webhook);
        assert creates0 + (before + [call]) == (creates0 + before) + [call];
        creates, failures := IssueCreate(call, respond, creates, failures);
      } else {
        assert before + [] == before;
      }
      m := m + 1;
    }
    assert webhooks[..m] == webhooks;
  }

  /** One create request, answered by `respond` at its position among all
      requests; a failed one is recorded with its error and the loop goes on. */
  method IssueCreate(
    call: CreateCall, respond: nat -> CreateResponse, creates0: seq<CreateCall>, failures0: seq<CreateFailure>)
    returns (creates: seq<CreateCall>, failures: seq<CreateFailure>)
    requires failures0 == FailedCreates(creates0, respond)
    ensures creates == creates0 + [call]
    ensures failures == FailedCreates(creates, respond)
  {
    var response := respond(|creates0|);
    FailedCreatesStep(creates0, call, respond);
    creates := creates0 + [call];
    var e := CreateWebhookError(response);
    if e.Some? {
      failures := failures0 + [CreateFailure(call, e.value)];
    } else {
      failures := failures0;
      assert failures0 + [] == failures0;
    }
  }

  /** One payload of the loop that issues the create requests. */
  lemma MissingCallsStep(repository: string, urls: set<string>, payloads: seq<DockerHubWebhookWrapper>, w: DockerHubWebhookWrapper)
    ensures MissingCalls(repository, urls, payloads + [w])
         == MissingCalls(repository, urls, payloads) + (if HookUrl(w) in urls then [] else [CreateCall(repository, w)])
  {
    assert (payloads + [w])[..|payloads|] == payloads && (payloads + [w])[|payloads|] == w;
  }

  /** One more create request, and whether it is reported as failed. */
  lemma FailedCreatesStep(calls: seq<CreateCall>, call: CreateCall, respond: nat -> CreateResponse)
    ensures FailedCreates(calls + [call], respond)
         == FailedCreates(calls, respond)
            + (match CreateWebhookError(respond(|calls|))
               case Some(message) => [CreateFailure(call, message)]
               case None => [])
  {
    assert (calls + [call])[..|calls|] == calls && (calls + [call])[|calls|] == call;
  }

  // The folds stop at their first error

  /** Once a payload fails, later targets keep that failure. This follows from
      the contract of `GroupPayloads`: a failure means some target exists and
      the base URL does not parse, which stays so for every extension. */
  lemma GroupFailurePersists(
    lib: UrlLibrary, baseUrl: string, a: seq<RepositoryReceiver>, b: seq<RepositoryReceiver>)
    requires GroupPayloads(lib, baseUrl, a).Failure?
    ensures GroupPayloads(lib, baseUrl, a + b) == GroupPayloads(lib, baseUrl, a)
  {
  }

  lemma {:induction false} UrlsFailurePersists(
    repository: string, a: seq<DockerHubWebhookWrapper>, b: seq<DockerHubWebhookWrapper>)
    requires ExistingUrls(repository, a).Failure?
    ensures ExistingUrls(repository, a + b) == ExistingUrls(repository, a)
  {
    if b == [] {
      assert a + b == a;
    } else {
      UrlsFailurePersists(repository, a, b[..|b| - 1]);
      assert (a + b)[..|a + b| - 1] == a + b[..|b| - 1];
    }
  }

  // What a listing registers, and which payloads it leaves to create

  /** The callback URLs of a repository's listed webhooks. */
  function RegisteredUrls(results: seq<DockerHubWebhookWrapper>): set<string>
  {
    set w | w in results :: HookUrl(w)
  }

  /** A listing is accepted exactly when every entry has one sub-webhook; its
      URLs are then those of all entries, and otherwise the error names the
      first entry of another shape. */
  lemma ExistingUrlsSpec(repository: string, results: seq<DockerHubWebhookWrapper>)
    ensures ExistingUrls(repository, results).Success? <==> forall w :: w in results ==> SingleHook(w)
    ensures ExistingUrls(repository, results).Success? ==>
              ExistingUrls(repository, results).value == RegisteredUrls(results)
    ensures ExistingUrls(repository, results).Failure? ==>
              exists i :: 0 <= i < |results| && !SingleHook(results[i])
                && (forall j :: 0 <= j < i ==> SingleHook(results[j]))
                && ExistingUrls(repository, results).error == UnexpectedWebhookCount(repository, results[i].name)
  {
    if ExistingUrls(repository, results).Success? {
      ExistingUrlsAccepted(repository, results);
    } else {
      var i := ExistingUrlsRejected(repository, results);
      assert results[i] in results;
    }
  }

  lemma {:induction false} ExistingUrlsAccepted(repository: string, results: seq<DockerHubWebhookWrapper>)
    requires ExistingUrls(repository, results).Success?
    ensures forall w :: w in results ==> SingleHook(w)
    ensures ExistingUrls(repository, results).value == RegisteredUrls(results)
  {
    if results != [] {
      var init, w := results[..|results| - 1], results[|results| - 1];
      ExistingUrlsAccepted(repository, init);
      assert results == init + [w];
      assert RegisteredUrls(results) == RegisteredUrls(init) + {HookUrl(w)};
    }
  }

  lemma {:induction false} ExistingUrlsRejected(repository: string, results: seq<DockerHubWebhookWrapper>)
    returns (i: nat)
    requires ExistingUrls(repository, results).Failure?
    ensures i < |results| && !SingleHook(results[i]) && (forall j :: 0 <= j < i ==> SingleHook(results[j]))
    ensures ExistingUrls(repository, results).error == UnexpectedWebhookCount(repository, results[i].name)
  {
    var init := results[..|results| - 1];
    if ExistingUrls(repository, init).Failure? {
      i := ExistingUrlsRejected(repository, init);
      assert forall j :: 0 <= j <= i ==> results[j] == init[j];
    } else {
      ExistingUrlsAccepted(repository, init);
      i := |results| - 1;
      assert forall j :: 0 <= j < i ==> results[j] in init;
    }
  }

  /** A create request is issued for a payload exactly when its callback URL
      is not registered; the request is for the repository at hand. */
  lemma {:induction false} MissingCallsMembership(
    repository: string, urls: set<string>, payloads: seq<DockerHubWebhookWrapper>, c: CreateCall)
    ensures c in MissingCalls(repository, urls, payloads) <==>
              c.repository == repository && c.webhook in payloads && HookUrl(c.webhook) !in urls
  {
    if payloads != [] {
      var init := payloads[..|payloads| - 1];
      MissingCallsMembership(repository, urls, init, c);
      assert payloads == init + [payloads[|payloads| - 1]];
    }
  }

  /** When no payload's URL is registered, every payload is created, in
      order: two payloads sharing a URL are both created, since the URL set
      is not updated after a create. */
  lemma {:induction false} MissingCallsAllAbsent(
    repository: string, urls: set<string>, payloads: seq<DockerHubWebhookWrapper>)
    requires forall w :: w in payloads ==> HookUrl(w) !in urls
    ensures |MissingCalls(repository, urls, payloads)| == |payloads|
    ensures forall i :: 0 <= i < |payloads| ==>
              MissingCalls(repository, urls, payloads)[i] == CreateCall(repository, payloads[i])
  {
    if payloads != [] {
      var init := payloads[..|payloads| - 1];
      assert forall w :: w in init ==> w in payloads;
      MissingCallsAllAbsent(repository, urls, init);
      assert payloads[|payloads| - 1] in payloads;
    }
  }

  /** When every payload's URL is registered, nothing is created. */
  lemma {:induction false} MissingCallsAllPresent(
    repository: string, urls: set<string>, payloads: seq<DockerHubWebhookWrapper>)
    requires forall w :: w in payloads ==> HookUrl(w) in urls
    ensures MissingCalls(repository, urls, payloads) == []
  {
    if payloads != [] {
      var init := payloads[..|payloads| - 1];
      assert forall w :: w in init ==> w in payloads;
      MissingCallsAllPresent(repository, urls, init);
      assert payloads[|payloads| - 1] in payloads;
    }
  }

  // One repository

  /** A repository ends the run exactly when its listing fails, reports more
      webhooks than one page holds, or has an entry without exactly one
      sub-webhook. */
  lemma RepositoryFailsIff(
    repository: string, payloads: seq<DockerHubWebhookWrapper>,
    listing: Result<GetDockerHubWebhooksResponse, string>)
    ensures ReconcileRepository(repository, payloads, listing).Failure? <==>
              || listing.Failure?
              || listing.value.count > PageSize
              || exists w :: w in listing.value.results && !SingleHook(w)
    ensures listing.Failure? ==>
              ReconcileRepository(repository, payloads, listing) == Failure(ListingFailed(listing.error))
    ensures listing.Success? && listing.value.count > PageSize ==>
              ReconcileRepository(repository, payloads, listing) == Failure(TooManyWebhooks)
  {
    if listing.Success? {
      ExistingUrlsSpec(repository, listing.value.results);
    }
  }

  /** For an accepted listing, a payload is created exactly when no listed
      entry has its callback URL. */
  lemma RepositoryCreatesIffUrlAbsent(
    repository: string, payloads: seq<DockerHubWebhookWrapper>, resp: GetDockerHubWebhooksResponse, c: CreateCall)
    requires resp.count <= PageSize
    requires forall w :: w in resp.results ==> SingleHook(w)
    ensures ReconcileRepository(repository, payloads, Success(resp)).Success?
    ensures c in ReconcileRepository(repository, payloads, Success(resp)).value <==>
              && c.repository == repository && c.webhook in payloads
              && forall w :: w in resp.results ==> HookUrl(w) != HookUrl(c.webhook)
  {
    ExistingUrlsSpec(repository, resp.results);
    MissingCallsMembership(repository, RegisteredUrls(resp.results), payloads, c);
  }

  /** Only URLs are compared: two accepted listings with the same callback
      URLs, whatever the names of their entries, lead to the same creates. */
  lemma NamesIgnored(
    repository: string, payloads: seq<DockerHubWebhookWrapper>,
    resp1: GetDockerHubWebhooksResponse, resp2: GetDockerHubWebhooksResponse)
    requires resp1.count <= PageSize && resp2.count <= PageSize
    requires forall w :: w in resp1.results ==> SingleHook(w)
    requires forall w :: w in resp2.results ==> SingleHook(w)
    requires RegisteredUrls(resp1.results) == RegisteredUrls(resp2.results)
    ensures ReconcileRepository(repository, payloads, Success(resp1))
         == ReconcileRepository(repository, payloads, Success(resp2))
  {
    ExistingUrlsSpec(repository, resp1.results);
    ExistingUrlsSpec(repository, resp2.results);
  }

  /** An accepted listing that already has every desired URL leads to no create. */
  lemma AllPresentCreatesNothing(
    repository: string, payloads: seq<DockerHubWebhookWrapper>, resp: GetDockerHubWebhooksResponse)
    requires resp.count <= PageSize
    requires forall w :: w in resp.results ==> SingleHook(w)
    requires forall w :: w in payloads ==> HookUrl(w) in RegisteredUrls(resp.results)
    ensures ReconcileRepository(repository, payloads, Success(resp)) == Success([])
  {
    ExistingUrlsSpec(repository, resp.results);
    MissingCallsAllPresent(repository, RegisteredUrls(resp.results), payloads);
  }

  /** The payloads of a sequence of create requests. */
  function CreatedWebhooks(calls: seq<CreateCall>): seq<DockerHubWebhookWrapper>
  {
    seq(|calls|, i requires 0 <= i < |calls| => calls[i].webhook)
  }

  /** A listing after `calls` have been created: one more entry per created
      payload, and a count raised accordingly. */
  function AfterCreates(resp: GetDockerHubWebhooksResponse, calls: seq<CreateCall>): GetDockerHubWebhooksResponse
  {
    resp.(count := resp.count + |calls|, results := resp.results + CreatedWebhooks(calls))
  }

  /** Idempotence for one repository: once the creates of a pass have taken
      effect, a second pass over the same payloads creates nothing (provided
      the raised count still fits one page). */
  lemma SecondPassCreatesNothing(
    repository: string, payloads: seq<DockerHubWebhookWrapper>, resp: GetDockerHubWebhooksResponse)
    requires forall w :: w in payloads ==> SingleHook(w)
    requires ReconcileRepository(repository, payloads, Success(resp)).Success?
    requires resp.count + |ReconcileRepository(repository, payloads, Success(resp)).value| <= PageSize
    ensures ReconcileRepository(repository, payloads,
              Success(AfterCreates(resp, ReconcileRepository(repository, payloads, Success(resp)).value)))
            == Success([])
  {
    var calls := ReconcileRepository(repository, payloads, Success(resp)).value;
    var after := AfterCreates(resp, calls);
    ExistingUrlsSpec(repository, resp.results);
    var urls := RegisteredUrls(resp.results);
    assert ExistingUrls(repository, resp.results) == Success(urls);
    assert calls == MissingCalls(repository, urls, payloads);
    forall w | w in after.results
      ensures SingleHook(w)
    {
      if w !in resp.results {
        var i :| 0 <= i < |calls| && w == calls[i].webhook;
        MissingCallsMembership(repository, urls, payloads, calls[i]);
      }
    }
    forall w | w in payloads
      ensures HookUrl(w) in RegisteredUrls(after.results)
    {
      if HookUrl(w) !in urls {
        var c := CreateCall(repository, w);
        MissingCallsMembership(repository, urls, payloads, c);
        var i :| 0 <= i < |calls| && calls[i] == c;
        assert after.results[|resp.results| + i] == w;
      } else {
        var v :| v in resp.results && HookUrl(v) == HookUrl(w);
        assert v in after.results;
      }
    }
    AllPresentCreatesNothing(repository, payloads, after);
  }

  // The loop over repositories

  /** Processing `a` then `b`: if `a` ends in an error nothing of `b` runs;
      otherwise the creates of `b` follow those of `a`. */
  lemma {:induction false} ReconcileRepositoriesAppend(
    groups: map<string, seq<DockerHubWebhookWrapper>>, a: seq<string>, b: seq<string>,
    remote: string -> Result<GetDockerHubWebhooksResponse, string>)
    ensures ReconcileRepositories(groups, a + b, remote) ==
              if ReconcileRepositories(groups, a, remote).0.Some? then ReconcileRepositories(groups, a, remote)
              else (ReconcileRepositories(groups, b, remote).0,
                    ReconcileRepositories(groups, a, remote).1 + ReconcileRepositories(groups, b, remote).1)
  {
    if a == [] {
      assert a + b == b;
      assert [] + ReconcileRepositories(groups, b, remote).1 == ReconcileRepositories(groups, b, remote).1;
    } else {
      assert (a + b)[0] == a[0] && (a + b)[1..] == a[1..] + b;
      ReconcileRepositoriesAppend(groups, a[1..], b, remote);
      if StepFor(groups, remote, a[0]).Success? {
        var calls := StepFor(groups, remote, a[0]).value;
        var x, y := ReconcileRepositories(groups, a[1..], remote).1, ReconcileRepositories(groups, b, remote).1;
        assert calls + (x + y) == (calls + x) + y;
      }
    }
  }

  /** The run is error-free exactly when every repository of `order` succeeds. */
  lemma {:induction false} ReconcileRepositoriesSucceeds(
    groups: map<string, seq<DockerHubWebhookWrapper>>, order: seq<string>,
    remote: string -> Result<GetDockerHubWebhooksResponse, string>)
    ensures ReconcileRepositories(groups, order, remote).0.None? <==>
              forall repository :: repository in order ==> StepFor(groups, remote, repository).Success?
  {
    if order != [] {
      ReconcileRepositoriesSucceeds(groups, order[1..], remote);
      ReconcileRepositoriesUnfold(groups, order, remote);
      assert forall repository :: repository in order <==> repository == order[0] || repository in order[1..];
    }
  }

  /** A run that fails returns the error of the first repository `order[k]`
      that fails, with the creates of the repositories before it. */
  lemma {:induction false} FirstFailure(
    groups: map<string, seq<DockerHubWebhookWrapper>>, order: seq<string>,
    remote: string -> Result<GetDockerHubWebhooksResponse, string>)
    returns (k: nat)
    requires ReconcileRepositories(groups, order, remote).0.Some?
    ensures k < |order| && StepFor(groups, remote, order[k]).Failure?
    ensures ReconcileRepositories(groups, order[..k], remote).0.None?
    ensures ReconcileRepositories(groups, order, remote)
            == (Some(StepFor(groups, remote, order[k]).error), ReconcileRepositories(groups, order[..k], remote).1)
  {
    ReconcileRepositoriesUnfold(groups, order, remote);
    var step := StepFor(groups, remote, order[0]);
    if step.Failure? {
      k := 0;
      assert order[..0] == [];
    } else {
      var rest := order[1..];
      var k' := FirstFailure(groups, rest, remote);
      k := k' + 1;
      var upTo := order[..k];
      assert upTo[0] == order[0] && upTo[1..] == rest[..k'];
      ReconcileRepositoriesUnfold(groups, upTo, remote);
      assert order[k] == rest[k'];
    }
  }

  /** The repositories up to the first failing one: no create is issued for
      it or for any repository after it. */
  lemma AbortStopsLaterRepositories(
    groups: map<string, seq<DockerHubWebhookWrapper>>, order: seq<string>,
    remote: string -> Result<GetDockerHubWebhooksResponse, string>, k: nat)
    requires k < |order|
    requires ReconcileRepositories(groups, order[..k], remote).0.None?
    requires StepFor(groups, remote, order[k]).Failure?
    ensures ReconcileRepositories(groups, order, remote)
            == (Some(StepFor(groups, remote, order[k]).error), ReconcileRepositories(groups, order[..k], remote).1)
    ensures forall c :: c in ReconcileRepositories(groups, order, remote).1 ==> c.repository in order[..k]
  {
    assert order == order[..k] + order[k..];
    assert order[k..][0] == order[k];
    ReconcileRepositoriesAppend(groups, order[..k], order[k..], remote);
    assert ReconcileRepositories(groups, order[..k], remote).1 + [] == ReconcileRepositories(groups, order[..k], remote).1;
    forall c | c in ReconcileRepositories(groups, order, remote).1
      ensures c.repository in order[..k]
    {
      CreatesAreForListedRepositories(groups, order[..k], remote, c);
    }
  }

  /** Every create request is one that its repository's pass issues: for a
      repository of `order`, for a payload of its group, whose URL its
      listing does not have. */
  lemma {:induction false} CreatesAreForListedRepositories(
    groups: map<string, seq<DockerHubWebhookWrapper>>, order: seq<string>,
    remote: string -> Result<GetDockerHubWebhooksResponse, string>, c: CreateCall)
    requires c in ReconcileRepositories(groups, order, remote).1
    ensures c.repository in order
    ensures StepFor(groups, remote, c.repository).Success? && c in StepFor(groups, remote, c.repository).value
  {
    var step := StepFor(groups, remote, order[0]);
    var rest := ReconcileRepositories(groups, order[1..], remote);
    if c in step.value {
      MissingCallsOfRepository(groups, remote, order[0], c);
    } else {
      CreatesAreForListedRepositories(groups, order[1..], remote, c);
    }
  }

  /** The creates of one repository are all for it. */
  lemma MissingCallsOfRepository(
    groups: map<string, seq<DockerHubWebhookWrapper>>,
    remote: string -> Result<GetDockerHubWebhooksResponse, string>, repository: string, c: CreateCall)
    requires StepFor(groups, remote, repository).Success?
    requires c in StepFor(groups, remote, repository).value
    ensures c.repository == repository
  {
    var resp := remote(repository).value;
    MissingCallsMembership(repository, ExistingUrls(repository, resp.results).value, Lookup(groups, repository), c);
  }

  /** In an error-free run, the creates of every repository of `order` are issued. */
  lemma {:induction false} CreatesOfEveryRepository(
    groups: map<string, seq<DockerHubWebhookWrapper>>, order: seq<string>,
    remote: string -> Result<GetDockerHubWebhooksResponse, string>, repository: string, c: CreateCall)
    requires ReconcileRepositories(groups, order, remote).0.None?
    requires repository in order
    requires StepFor(groups, remote, repository).Success? && c in StepFor(groups, remote, repository).value
    ensures c in ReconcileRepositories(groups, order, remote).1
  {
    if order[0] != repository {
      CreatesOfEveryRepository(groups, order[1..], remote, repository, c);
    }
  }

  // The payload groups

  /** A desired webhook's payload is in the group of its repository, and each
      group holds the payloads of that repository's desired webhooks in input
      order. */
  lemma {:induction false} GroupsPreserveInputOrder(
    lib: UrlLibrary, baseUrl: string, targets: seq<RepositoryReceiver>, repository: string)
    requires lib.parses(baseUrl)
    ensures Lookup(GroupPayloads(lib, baseUrl, targets).value, repository)
            == Payloads(lib, baseUrl, TargetsFor(targets, repository))
  {
    if targets != [] {
      var init, t := targets[..|targets| - 1], targets[|targets| - 1];
      GroupsPreserveInputOrder(lib, baseUrl, init, repository);
      var g0 := GroupPayloads(lib, baseUrl, init).value;
      var w := NewDockerHubWebhook(lib, baseUrl, t).value;
      assert GroupPayloads(lib, baseUrl, targets).value == g0[t.repository := Lookup(g0, t.repository) + [w]];
      var ts := TargetsFor(init, repository);
      if t.repository == repository {
        assert TargetsFor(targets, repository) == ts + [t];
        assert (ts + [t])[..|ts + [t]| - 1] == ts;
        assert Payloads(lib, baseUrl, ts + [t]) == Payloads(lib, baseUrl, ts) + [w];
      } else {
        assert TargetsFor(targets, repository) == ts + [];
        assert ts + [] == ts;
      }
    }
  }

  /** The desired webhooks selected for a repository are those for it. */
  lemma {:induction false} TargetsForMembership(targets: seq<RepositoryReceiver>, repository: string, t: RepositoryReceiver)
    ensures t in TargetsFor(targets, repository) <==> t in targets && t.repository == repository
  {
    if targets != [] {
      TargetsForMembership(targets[..|targets| - 1], repository, t);
      assert targets == targets[..|targets| - 1] + [targets[|targets| - 1]];
    }
  }

  /** The payloads built for a sequence of desired webhooks are those of its elements. */
  lemma {:induction false} PayloadsMembership(
    lib: UrlLibrary, baseUrl: string, targets: seq<RepositoryReceiver>, w: DockerHubWebhookWrapper)
    requires lib.parses(baseUrl)
    ensures w in Payloads(lib, baseUrl, targets) <==>
              exists t :: t in targets && w == NewDockerHubWebhook(lib, baseUrl, t).value
  {
    if targets != [] {
      PayloadsMembership(lib, baseUrl, targets[..|targets| - 1], w);
      assert targets == targets[..|targets| - 1] + [targets[|targets| - 1]];
    }
  }

  /** The payloads grouped under a repository are exactly those of its desired webhooks. */
  lemma GroupMembership(
    lib: UrlLibrary, baseUrl: string, targets: seq<RepositoryReceiver>, repository: string, w: DockerHubWebhookWrapper)
    requires lib.parses(baseUrl)
    ensures w in Lookup(GroupPayloads(lib, baseUrl, targets).value, repository) <==>
              exists t :: t in targets && t.repository == repository && w == NewDockerHubWebhook(lib, baseUrl, t).value
  {
    GroupsPreserveInputOrder(lib, baseUrl, targets, repository);
    PayloadsMembership(lib, baseUrl, TargetsFor(targets, repository), w);
    forall t ensures t in TargetsFor(targets, repository) <==> t in targets && t.repository == repository {
      TargetsForMembership(targets, repository, t);
    }
  }

  // The whole run

  /** Every create request of a run is for a desired webhook: its payload,
      for its repository, whose URL that repository's accepted listing does
      not have. */
  lemma CreatesAreDesired(
    lib: UrlLibrary, baseUrl: string, targets: seq<RepositoryReceiver>,
    remote: string -> Result<GetDockerHubWebhooksResponse, string>, order: seq<string>, c: CreateCall)
    requires c in Reconcile(lib, baseUrl, targets, remote, order).1
    ensures lib.parses(baseUrl) && c.repository in order
    ensures exists t :: t in targets && c == CreateCall(t.repository, NewDockerHubWebhook(lib, baseUrl, t).value)
    ensures remote(c.repository).Success? && HookUrl(c.webhook) !in RegisteredUrls(remote(c.repository).value.results)
  {
    var groups := GroupPayloads(lib, baseUrl, targets).value;
    CreatesAreForListedRepositories(groups, order, remote, c);
    var resp := remote(c.repository).value;
    ExistingUrlsSpec(c.repository, resp.results);
    MissingCallsMembership(c.repository, RegisteredUrls(resp.results), Lookup(groups, c.repository), c);
    GroupMembership(lib, baseUrl, targets, c.repository, c.webhook);
  }

  /** In an error-free run that visits every repository, every desired
      webhook whose URL its repository's listing does not have is created. */
  lemma CreatesAreComplete(
    lib: UrlLibrary, baseUrl: string, targets: seq<RepositoryReceiver>,
    remote: string -> Result<GetDockerHubWebhooksResponse, string>, order: seq<string>, t: RepositoryReceiver)
    requires EnumeratesOnce(order, Repositories(targets))
    requires Reconcile(lib, baseUrl, targets, remote, order).0.None?
    requires t in targets
    requires remote(t.repository).Success?
    requires HookUrl(NewDockerHubWebhook(lib, baseUrl, t).value) !in RegisteredUrls(remote(t.repository).value.results)
    ensures CreateCall(t.repository, NewDockerHubWebhook(lib, baseUrl, t).value) in Reconcile(lib, baseUrl, targets, remote, order).1
  {
    var groups := GroupPayloads(lib, baseUrl, targets).value;
    var w := NewDockerHubWebhook(lib, baseUrl, t).value;
    var c := CreateCall(t.repository, w);
    assert t.repository in Repositories(targets);
    ReconcileRepositoriesSucceeds(groups, order, remote);
    var resp := remote(t.repository).value;
    ExistingUrlsSpec(t.repository, resp.results);
    GroupMembership(lib, baseUrl, targets, t.repository, w);
    MissingCallsMembership(t.repository, RegisteredUrls(resp.results), Lookup(groups, t.repository), c);
    CreatesOfEveryRepository(groups, order, remote, t.repository, c);
  }

  /** What a repository's listing is once the creates of its pass have taken effect. */
  ghost predicate ListedAfterCreates(
    groups: map<string, seq<DockerHubWebhookWrapper>>,
    remote: string -> Result<GetDockerHubWebhooksResponse, string>,
    again: string -> Result<GetDockerHubWebhooksResponse, string>, repository: string)
  {
    && StepFor(groups, remote, repository).Success?
    && remote(repository).value.count + |StepFor(groups, remote, repository).value| <= PageSize
    && again(repository) == Success(AfterCreates(remote(repository).value, StepFor(groups, remote, repository).value))
  }

  /** Idempotence of a run: when every repository's listing shows the creates
      of the first pass, a second pass issues nothing and returns no error. */
  lemma {:induction false} RerunCreatesNothing(
    groups: map<string, seq<DockerHubWebhookWrapper>>, order: seq<string>,
    remote: string -> Result<GetDockerHubWebhooksResponse, string>,
    again: string -> Result<GetDockerHubWebhooksResponse, string>)
    requires SingleHookGroups(groups)
    requires forall repository :: repository in order ==> ListedAfterCreates(groups, remote, again, repository)
    ensures ReconcileRepositories(groups, order, again) == (None, [])
  {
    if order != [] {
      var repository := order[0];
      assert ListedAfterCreates(groups, remote, again, repository);
      assert remote(repository).Success?;
      SecondPassCreatesNothing(repository, Lookup(groups, repository), remote(repository).value);
      assert StepFor(groups, again, repository) == Success([]);
      RerunCreatesNothing(groups, order[1..], remote, again);
      var none: seq<CreateCall> := [];
      assert none + none == none;
    }
  }

  // Failed creates

  /** A reported failure is a create request whose answer is not a 201,
      with that answer's error. */
  lemma {:induction false} FailedCreatesSound(calls: seq<CreateCall>, respond: nat -> CreateResponse, f: CreateFailure)
    returns (k: nat)
    requires f in FailedCreates(calls, respond)
    ensures k < |calls| && f.call == calls[k] && CreateWebhookError(respond(k)) == Some(f.message)
  {
    var init, last := calls[..|calls| - 1], calls[|calls| - 1];
    assert calls == init + [last];
    FailedCreatesStep(init, last, respond);
    if f in FailedCreates(init, respond) {
      k := FailedCreatesSound(init, respond, f);
      assert calls[k] == init[k];
    } else {
      k := |calls| - 1;
    }
  }

  /** Every create request whose answer is not a 201 is reported, with that
      answer's error: a failed create does not stop the later ones. */
  lemma {:induction false} FailedCreatesComplete(calls: seq<CreateCall>, respond: nat -> CreateResponse, k: nat)
    requires k < |calls| && CreateWebhookError(respond(k)).Some?
    ensures CreateFailure(calls[k], CreateWebhookError(respond(k)).value) in FailedCreates(calls, respond)
  {
    var init, last := calls[..|calls| - 1], calls[|calls| - 1];
    assert calls == init + [last];
    FailedCreatesStep(init, last, respond);
    if k < |init| {
      assert calls[k] == init[k];
      FailedCreatesComplete(init, respond, k);
    }
  }

  /** When every create request is answered with a 201, no failure is reported. */
  lemma {:induction false} AllCreatedNoFailures(calls: seq<CreateCall>, respond: nat -> CreateResponse)
    requires forall k :: 0 <= k < |calls| ==> respond(k).HttpResponse? && respond(k).statusCode == StatusCreated
    ensures FailedCreates(calls, respond) == []
  {
    if calls != [] {
      AllCreatedNoFailures(calls[..|calls| - 1], respond);
    }
  }
}
