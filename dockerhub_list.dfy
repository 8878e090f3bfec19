/** The correlation of Flux notification `Receiver` objects with Flux
    `ImageRepository` objects, which yields the webhooks that should exist on
    Docker Hub (cmd/dockerhub_list.go). */
module DockerHubList {
  import opened Wrappers

  /** The receiver type tag of Docker Hub receivers (`notificationv1.DockerHubReceiver`). */
  const DockerHubReceiver: string := "dockerhub"

  /** The API version written onto every resource reference before it is looked up. */
  const ImageRepositoryApiVersion: string := "image.toolkit.fluxcd.io/v1beta2"

  /** The fields of an `ImageRepository` that the correlation reads: its type
      and object metadata, and `Spec.Image`. */
  datatype ImageRepository = ImageRepository(
    apiVersion: string, kind: string, namespace: string, name: string,
    image: string)

  /** One entry of a receiver's `Spec.Resources`. */
  datatype ObjectReference = ObjectReference(
    apiVersion: string, kind: string, namespace: string, name: string)

  /** The fields of a `Receiver` that the correlation reads: its object
      metadata, `Spec.Type`, `Spec.Resources` and `Status.WebhookPath`. */
  datatype Receiver = Receiver(
    apiVersion: string, kind: string, namespace: string, name: string,
    receiverType: string, resources: seq<ObjectReference>, webhookPath: string)

  /** A webhook that should exist: the image it is for, the receiver's
      "namespace/name" and the receiver's webhook path. */
  datatype RepositoryReceiver = RepositoryReceiver(repository: string, name: string, path: string)

  /** The two ways the correlation fails: one of the cluster listings failed. */
  datatype ListError = RepositoriesListFailed(cause: string) | ReceiversListFailed(cause: string)

  /** The identity key "apiVersion/kind/namespace/name". */
  function ObjectKey(apiVersion: string, kind: string, namespace: string, name: string): string
  {
    apiVersion + "/" + kind + "/" + namespace + "/" + name
  }

  function RepositoryKey(repo: ImageRepository): string
  {
    ObjectKey(repo.apiVersion, repo.kind, repo.namespace, repo.name)
  }

  /** The namespace a reference is looked up in: its own, or the receiver's when it has none. */
  function EffectiveNamespace(receiver: Receiver, ref: ObjectReference): string
  {
    if ref.namespace == "" then receiver.namespace else ref.namespace
  }

  /** The key a reference is looked up under, after namespace defaulting and
      with the API version forced. */
  function ReferenceKey(receiver: Receiver, ref: ObjectReference): string
  {
    ObjectKey(ImageRepositoryApiVersion, ref.kind, EffectiveNamespace(receiver, ref), ref.name)
  }

  /** The receiver's "namespace/name". */
  function ShortKey(receiver: Receiver): string
  {
    receiver.namespace + "/" + receiver.name
  }

  /** The key "image:namespace/name" and the value stored for a receiver that
      matched a repository. */
  function Entry(repo: ImageRepository, receiver: Receiver): (string, RepositoryReceiver)
  {
    (repo.image + ":" + ShortKey(receiver),
     RepositoryReceiver(repo.image, ShortKey(receiver), receiver.webhookPath))
  }

  /** The map obtained by inserting the entries in order: the last entry with
      a key gives that key's value. */
  function LastWins<V>(entries: seq<(string, V)>): map<string, V>
  {
    if entries == [] then map[]
    else LastWins(entries[..|entries| - 1])[entries[|entries| - 1].0 := entries[|entries| - 1].1]
  }

  function KeyedRepositories(repos: seq<ImageRepository>): seq<(string, ImageRepository)>
  {
    seq(|repos|, k requires 0 <= k < |repos| => (RepositoryKey(repos[k]), repos[k]))
  }

  /** The `repositories` index: every listed repository under its identity key. */
  function IndexRepositories(repos: seq<ImageRepository>): map<string, ImageRepository>
  {
    LastWins(KeyedRepositories(repos))
  }

  /** What one resource reference of a Docker Hub receiver inserts: nothing
      when the receiver has no webhook path or the reference is not indexed,
      otherwise one entry. */
  function ReferenceEntry(index: map<string, ImageRepository>, receiver: Receiver, ref: ObjectReference)
    : seq<(string, RepositoryReceiver)>
  {
    var key := ReferenceKey(receiver, ref);
    if receiver.webhookPath == "" then []
    else if key in index then [Entry(index[key], receiver)]
    else []
  }

  /** The concatenation of `f(x)` over the elements `x` of `xs`, in order:
      what a loop over `xs` inserts when the element `x` inserts `f(x)`. */
  function FlatMap<T, U>(f: T -> seq<U>, xs: seq<T>): seq<U>
  {
    if xs == [] then [] else FlatMap(f, xs[..|xs| - 1]) + f(xs[|xs| - 1])
  }

  function ReferenceEntryOf(index: map<string, ImageRepository>, receiver: Receiver)
    : ObjectReference -> seq<(string, RepositoryReceiver)>
  {
    ref => ReferenceEntry(index, receiver, ref)
  }

  /** What the references `refs` of a receiver insert, in order. */
  function ReferencesEntries(index: map<string, ImageRepository>, receiver: Receiver, refs: seq<ObjectReference>)
    : seq<(string, RepositoryReceiver)>
  {
    FlatMap(ReferenceEntryOf(index, receiver), refs)
  }

  /** What one receiver inserts: nothing unless it is a Docker Hub receiver. */
  function ReceiverEntries(index: map<string, ImageRepository>, receiver: Receiver): seq<(string, RepositoryReceiver)>
  {
    if receiver.receiverType == DockerHubReceiver then ReferencesEntries(index, receiver, receiver.resources)
    else []
  }

  function ReceiverEntriesOf(index: map<string, ImageRepository>): Receiver -> seq<(string, RepositoryReceiver)>
  {
    receiver => ReceiverEntries(index, receiver)
  }

  /** All insertions into `webhooks`, in the order the nested loops make them. */
  function Entries(index: map<string, ImageRepository>, receivers: seq<Receiver>): seq<(string, RepositoryReceiver)>
  {
    FlatMap(ReceiverEntriesOf(index), receivers)
  }

  /** The map the correlation returns for two successful listings. */
  function Correlate(repos: seq<ImageRepository>, receivers: seq<Receiver>): map<string, RepositoryReceiver>
  {
    LastWins(Entries(IndexRepositories(repos), receivers))
  }

  /** Reference `ref` of `receiver` inserts entry `e`. */
  ghost predicate Emits(index: map<string, ImageRepository>, receiver: Receiver, ref: ObjectReference,
                        e: (string, RepositoryReceiver))
  {
    && receiver.receiverType == DockerHubReceiver
    && receiver.webhookPath != ""
    && ReferenceKey(receiver, ref) in index
    && e == Entry(index[ReferenceKey(receiver, ref)], receiver)
  }

  /** Lists the image repositories and the receivers (given here as the two
      listing results) and joins them: for every reference of every active
      Docker Hub receiver that names a listed repository, one webhook keyed by
      "image:namespace/name". */
  method ListRepositoryReceivers(
    repoListing: Result<seq<ImageRepository>, string>,
    receiverListing: Result<seq<Receiver>, string>)
    returns (r: Result<map<string, RepositoryReceiver>, ListError>)
    ensures repoListing.Failure? ==> r == Failure(RepositoriesListFailed(repoListing.error))
    ensures repoListing.Success? && receiverListing.Failure? ==>
              r == Failure(ReceiversListFailed(receiverListing.error))
    ensures repoListing.Success? && receiverListing.Success? ==>
              r == Success(Correlate(repoListing.value, receiverListing.value))
  {
    if repoListing.Failure? {
      return Failure(RepositoriesListFailed(repoListing.error));
    }
    var repositories := IndexRepositoryList(repoListing.value);
    if receiverListing.Failure? {
      return Failure(ReceiversListFailed(receiverListing.error));
    }
    var webhooks := CorrelateReceivers(repositories, receiverListing.value);
    return Success(webhooks);
  }

  /** The first loop: every listed repository stored under its identity key. */
  method IndexRepositoryList(repoList: seq<ImageRepository>) returns (repositories: map<string, ImageRepository>)
    ensures repositories == IndexRepositories(repoList)
  {
    repositories := map[];
    var i := 0;
    while i < |repoList|
      invariant 0 <= i <= |repoList|
      invariant repositories == LastWins(KeyedRepositories(repoList[..i]))
    {
      var repo := repoList[i];
      var key := ObjectKey(repo.apiVersion, repo.kind, repo.namespace, repo.name);
      assert repoList[..i + 1] == repoList[..i] + [repo];
      KeyedRepositoriesStep(repoList[..i], repo);
      repositories := repositories[key := repo];
      i := i + 1;
    }
    assert repoList[..i] == repoList;
  }

  /** The loop over receivers: the references of every Docker Hub receiver
      are looked up in `repositories`, in order. */
  method CorrelateReceivers(repositories: map<string, ImageRepository>, receivers: seq<Receiver>)
    returns (webhooks: map<string, RepositoryReceiver>)
    ensures webhooks == LastWins(Entries(repositories, receivers))
  {
    webhooks := map[];
    var n := 0;
    while n < |receivers|
      invariant 0 <= n <= |receivers|
      invariant webhooks == LastWins(Entries(repositories, receivers[..n]))
    {
      var receiver := receivers[n];
      assert receivers[..n + 1] == receivers[..n] + [receiver];
      EntriesStep(repositories, receivers[..n], receiver);
      if receiver.receiverType == DockerHubReceiver {
        webhooks := InsertReferences(repositories, receiver, webhooks, Entries(repositories, receivers[..n]));
      } else {
        assert Entries(repositories, receivers[..n]) + [] == Entries(repositories, receivers[..n]);
      }
      n := n + 1;
    }
    assert receivers[..n] == receivers;
  }

  /** The loop over one receiver's references: each is completed with the
      receiver's namespace when it has none and given the image API version,
      and a receiver with a webhook path inserts an entry for each reference
      that names an indexed repository. */
  method InsertReferences(
    repositories: map<string, ImageRepository>, receiver: Receiver,
    webhooks0: map<string, RepositoryReceiver>, ghost inserted0: seq<(string, RepositoryReceiver)>)
    returns (webhooks: map<string, RepositoryReceiver>)
    requires webhooks0 == LastWins(inserted0)
    ensures webhooks == LastWins(inserted0 + ReferencesEntries(repositories, receiver, receiver.resources))
  {
    webhooks := webhooks0;
    ghost var inserted := inserted0;
    var refs := receiver.resources;
    assert inserted0 + [] == inserted0;
    var m := 0;
    while m < |refs|
      invariant 0 <= m <= |refs|
      invariant inserted == inserted0 + ReferencesEntries(repositories, receiver, refs[..m])
      invariant webhooks == LastWins(inserted)
    {
      var ref := refs[m];
      if ref.namespace == "" {
        ref := ref.(namespace := receiver.namespace);
      }
      ref := ref.(apiVersion := ImageRepositoryApiVersion);
      var key := ObjectKey(ref.apiVersion, ref.kind, ref.namespace, ref.name);
      assert key == ReferenceKey(receiver, refs[m]);
      assert refs[..m + 1][..m] == refs[..m] && refs[..m + 1][m] == refs[m];
      ghost var before := ReferencesEntries(repositories, receiver, refs[..m]);
      assert ReferencesEntries(repositories, receiver, refs[..m + 1])
          == before + ReferenceEntry(repositories, receiver, refs[m]);
      if receiver.webhookPath == "" {
        // an inactive receiver: the reference is skipped
        assert before + [] == before;
      } else if key in repositories {
        var repo := repositories[key];
        var receiverShortKey := receiver.namespace + "/" + receiver.name;
        var webhookKey := repo.image + ":" + receiverShortKey;
        var entry := (webhookKey, RepositoryReceiver(repo.image, receiverShortKey, receiver.webhookPath));
        assert (inserted + [entry])[..|inserted|] == inserted;
        assert inserted0 + (before + [entry]) == (inserted0 + before) + [entry];
        webhooks := webhooks[webhookKey := entry.1];
        inserted := inserted + [entry];
      } else {
        assert before + [] == before;
      }
      m := m + 1;
    }
    assert refs[..m] == refs;
  }

  // One step of each loop

  /** One repository of the loop that builds the index. */
  lemma KeyedRepositoriesStep(repos: seq<ImageRepository>, repo: ImageRepository)
    ensures LastWins(KeyedRepositories(repos + [repo]))
            == LastWins(KeyedRepositories(repos))[RepositoryKey(repo) := repo]
  {
    var keyed := KeyedRepositories(repos + [repo]);
    assert keyed[..|repos|] == KeyedRepositories(repos);
    assert keyed[|repos|] == (RepositoryKey(repo), repo);
  }

  /** One receiver of the loop over receivers. */
  lemma EntriesStep(index: map<string, ImageRepository>, receivers: seq<Receiver>, receiver: Receiver)
    ensures Entries(index, receivers + [receiver]) == Entries(index, receivers) + ReceiverEntries(index, receiver)
  {
    FlatMapStep(ReceiverEntriesOf(index), receivers, receiver);
  }

  // Map insertion order

  /** The keys of the map are those of the entries. */
  lemma {:induction false} LastWinsKeys<V>(entries: seq<(string, V)>, key: string)
    ensures key in LastWins(entries) <==> exists k :: 0 <= k < |entries| && entries[k].0 == key
  {
    if entries != [] {
      var prefix := entries[..|entries| - 1];
      LastWinsKeys(prefix, key);
      if key in LastWins(prefix) {
        var k :| 0 <= k < |prefix| && prefix[k].0 == key;
        assert entries[k].0 == key;
      }
      if exists k :: 0 <= k < |entries| && entries[k].0 == key {
        var k :| 0 <= k < |entries| && entries[k].0 == key;
        if k < |prefix| {
          assert prefix[k].0 == key;
        }
      }
    }
  }

  /** Every value of the map is that of some entry with its key. */
  lemma {:induction false} LastWinsValue<V>(entries: seq<(string, V)>, key: string)
    requires key in LastWins(entries)
    ensures exists k :: 0 <= k < |entries| && entries[k] == (key, LastWins(entries)[key])
  {
    var prefix := entries[..|entries| - 1];
    if entries[|entries| - 1].0 != key {
      LastWinsValue(prefix, key);
      var k :| 0 <= k < |prefix| && prefix[k] == (key, LastWins(prefix)[key]);
      assert entries[k] == prefix[k];
    }
  }

  /** An entry that no later entry shares its key with gives the key's value. */
  lemma {:induction false} LastWinsLatest<V>(entries: seq<(string, V)>, k: nat)
    requires k < |entries|
    requires forall j :: k < j < |entries| ==> entries[j].0 != entries[k].0
    ensures entries[k].0 in LastWins(entries) && LastWins(entries)[entries[k].0] == entries[k].1
  {
    if k < |entries| - 1 {
      var prefix := entries[..|entries| - 1];
      assert prefix[k] == entries[k];
      forall j | k < j < |prefix| ensures prefix[j].0 != prefix[k].0 {
        assert prefix[j] == entries[j];
      }
      LastWinsLatest(prefix, k);
    }
  }

  /** Inserting `a` and then `b` is the union of the two maps, `b` taking precedence. */
  lemma {:induction false} LastWinsAppend<V>(a: seq<(string, V)>, b: seq<(string, V)>)
    ensures LastWins(a + b) == LastWins(a) + LastWins(b)
  {
    if b == [] {
      assert a + b == a;
    } else {
      var b', last := b[..|b| - 1], b[|b| - 1];
      calc {
        LastWins(a + b);
        { assert (a + b)[..|a + b| - 1] == a + b' && (a + b)[|a + b| - 1] == last; }
        LastWins(a + b')[last.0 := last.1];
        { LastWinsAppend(a, b'); }
        (LastWins(a) + LastWins(b'))[last.0 := last.1];
        LastWins(a) + LastWins(b')[last.0 := last.1];
        LastWins(a) + LastWins(b);
      }
    }
  }

  // The repository index

  /** Every indexed repository is a listed one, stored under its own key. */
  lemma IndexSound(repos: seq<ImageRepository>, key: string)
    requires key in IndexRepositories(repos)
    ensures IndexRepositories(repos)[key] in repos
    ensures RepositoryKey(IndexRepositories(repos)[key]) == key
  {
    LastWinsValue(KeyedRepositories(repos), key);
  }

  /** The index holds exactly the keys of the listed repositories. */
  lemma IndexKeys(repos: seq<ImageRepository>, key: string)
    ensures key in IndexRepositories(repos) <==> exists k :: 0 <= k < |repos| && RepositoryKey(repos[k]) == key
  {
    var keyed := KeyedRepositories(repos);
    LastWinsKeys(keyed, key);
    if key in IndexRepositories(repos) {
      var k :| 0 <= k < |keyed| && keyed[k].0 == key;
      assert RepositoryKey(repos[k]) == key;
    }
    if exists k :: 0 <= k < |repos| && RepositoryKey(repos[k]) == key {
      var k :| 0 <= k < |repos| && RepositoryKey(repos[k]) == key;
      assert keyed[k].0 == key;
    }
  }

  /** Of several repositories with one key, the last listed is the one indexed. */
  lemma IndexLastWriter(repos: seq<ImageRepository>, k: nat)
    requires k < |repos|
    requires forall j :: k < j < |repos| ==> RepositoryKey(repos[j]) != RepositoryKey(repos[k])
    ensures RepositoryKey(repos[k]) in IndexRepositories(repos)
    ensures IndexRepositories(repos)[RepositoryKey(repos[k])] == repos[k]
  {
    LastWinsLatest(KeyedRepositories(repos), k);
  }

  // The insertions

  /** An entry inserted for the references `refs` comes from one of them. */
  lemma ReferencesEntriesSound(
    index: map<string, ImageRepository>, receiver: Receiver, refs: seq<ObjectReference>,
    e: (string, RepositoryReceiver))
    returns (j: nat)
    requires e in ReferencesEntries(index, receiver, refs)
    ensures j < |refs| && e in ReferenceEntry(index, receiver, refs[j])
  {
    j := FlatMapSound(ReferenceEntryOf(index, receiver), refs, e);
  }

  /** What any one of the references `refs` inserts is among the insertions for `refs`. */
  lemma ReferencesEntriesComplete(
    index: map<string, ImageRepository>, receiver: Receiver, refs: seq<ObjectReference>,
    j: nat, e: (string, RepositoryReceiver))
    requires j < |refs| && e in ReferenceEntry(index, receiver, refs[j])
    ensures e in ReferencesEntries(index, receiver, refs)
  {
    FlatMapComplete(ReferenceEntryOf(index, receiver), refs, j, e);
  }

  /** Every inserted entry is emitted by some reference of some receiver. */
  lemma EntriesSound(
    index: map<string, ImageRepository>, receivers: seq<Receiver>, e: (string, RepositoryReceiver))
    returns (i: nat, j: nat)
    requires e in Entries(index, receivers)
    ensures i < |receivers| && j < |receivers[i].resources| && Emits(index, receivers[i], receivers[i].resources[j], e)
  {
    i := FlatMapSound(ReceiverEntriesOf(index), receivers, e);
    j := ReferencesEntriesSound(index, receivers[i], receivers[i].resources, e);
  }

  /** Every entry some reference of some receiver emits is inserted. */
  lemma EntriesComplete(
    index: map<string, ImageRepository>, receivers: seq<Receiver>, i: nat, j: nat, e: (string, RepositoryReceiver))
    requires i < |receivers| && j < |receivers[i].resources| && Emits(index, receivers[i], receivers[i].resources[j], e)
    ensures e in Entries(index, receivers)
  {
    ReferencesEntriesComplete(index, receivers[i], receivers[i].resources, j, e);
    FlatMapComplete(ReceiverEntriesOf(index), receivers, i, e);
  }

  /** The insertions for two receiver lists, one after the other. */
  lemma EntriesAppend(index: map<string, ImageRepository>, a: seq<Receiver>, b: seq<Receiver>)
    ensures Entries(index, a + b) == Entries(index, a) + Entries(index, b)
  {
    FlatMapAppend(ReceiverEntriesOf(index), a, b);
  }

  /** A receiver without a webhook path inserts nothing for any of its references. */
  lemma InactiveReferencesInsertNothing(
    index: map<string, ImageRepository>, receiver: Receiver, refs: seq<ObjectReference>)
    requires receiver.webhookPath == ""
    ensures ReferencesEntries(index, receiver, refs) == []
  {
    FlatMapNothing(ReferenceEntryOf(index, receiver), refs);
  }

  // The concatenation fold

  lemma FlatMapStep<T, U>(f: T -> seq<U>, xs: seq<T>, x: T)
    ensures FlatMap(f, xs + [x]) == FlatMap(f, xs) + f(x)
  {
    assert (xs + [x])[..|xs|] == xs && (xs + [x])[|xs|] == x;
  }

  lemma {:induction false} FlatMapAppend<T, U>(f: T -> seq<U>, a: seq<T>, b: seq<T>)
    ensures FlatMap(f, a + b) == FlatMap(f, a) + FlatMap(f, b)
  {
    if b == [] {
      assert a + b == a;
    } else {
      var b', last := b[..|b| - 1], b[|b| - 1];
      calc {
        FlatMap(f, a + b);
        { assert a + b == (a + b') + [last]; }
        FlatMap(f, (a + b') + [last]);
        { FlatMapStep(f, a + b', last); }
        FlatMap(f, a + b') + f(last);
        { FlatMapAppend(f, a, b'); }
        (FlatMap(f, a) + FlatMap(f, b')) + f(last);
        FlatMap(f, a) + (FlatMap(f, b') + f(last));
        { assert b == b' + [last]; FlatMapStep(f, b', last); }
        FlatMap(f, a) + FlatMap(f, b);
      }
    }
  }

  lemma {:induction false} FlatMapSound<T, U>(f: T -> seq<U>, xs: seq<T>, e: U) returns (j: nat)
    requires e in FlatMap(f, xs)
    ensures j < |xs| && e in f(xs[j])
  {
    var prefix := xs[..|xs| - 1];
    if e in FlatMap(f, prefix) {
      j := FlatMapSound(f, prefix, e);
      assert xs[j] == prefix[j];
    } else {
      j := |xs| - 1;
    }
  }

  lemma {:induction false} FlatMapComplete<T, U>(f: T -> seq<U>, xs: seq<T>, j: nat, e: U)
    requires j < |xs| && e in f(xs[j])
    ensures e in FlatMap(f, xs)
  {
    var prefix := xs[..|xs| - 1];
    if j < |prefix| {
      assert xs[j] == prefix[j];
      FlatMapComplete(f, prefix, j, e);
    }
  }

  lemma {:induction false} FlatMapNothing<T, U>(f: T -> seq<U>, xs: seq<T>)
    requires forall x :: x in xs ==> f(x) == []
    ensures FlatMap(f, xs) == []
  {
    if xs != [] {
      assert forall x :: x in xs[..|xs| - 1] ==> x in xs;
      FlatMapNothing(f, xs[..|xs| - 1]);
      assert xs[|xs| - 1] in xs;
    }
  }

  // Properties of the correlation

  /** Every returned webhook comes from an active Docker Hub receiver, one of
      whose references (after namespace defaulting and with the forced API
      version) has the key of a listed repository; the webhook's repository is
      that repository's image, its name the receiver's "namespace/name", its
      path the receiver's webhook path, and it is stored under
      "image:namespace/name". */
  lemma CorrelateSound(repos: seq<ImageRepository>, receivers: seq<Receiver>, key: string)
    requires key in Correlate(repos, receivers)
    ensures exists i, j :: 0 <= i < |receivers| && 0 <= j < |receivers[i].resources|
              && receivers[i].receiverType == DockerHubReceiver
              && receivers[i].webhookPath != ""
              && ReferenceKey(receivers[i], receivers[i].resources[j]) in IndexRepositories(repos)
              && IndexRepositories(repos)[ReferenceKey(receivers[i], receivers[i].resources[j])] in repos
              && Correlate(repos, receivers)[key] ==
                 RepositoryReceiver(
                   IndexRepositories(repos)[ReferenceKey(receivers[i], receivers[i].resources[j])].image,
                   receivers[i].namespace + "/" + receivers[i].name,
                   receivers[i].webhookPath)
    ensures key == Correlate(repos, receivers)[key].repository + ":" + Correlate(repos, receivers)[key].name
    ensures exists repo :: repo in repos && repo.image == Correlate(repos, receivers)[key].repository
  {
    var index := IndexRepositories(repos);
    var entries := Entries(index, receivers);
    LastWinsValue(entries, key);
    var k :| 0 <= k < |entries| && entries[k] == (key, LastWins(entries)[key]);
    var i, j := EntriesSound(index, receivers, entries[k]);
    IndexSound(repos, ReferenceKey(receivers[i], receivers[i].resources[j]));
  }

  /** Every reference of an active Docker Hub receiver that names a listed
      repository yields a webhook under "image:namespace/name", the image
      being that of the last repository listed with the reference's key. */
  lemma CorrelateComplete(repos: seq<ImageRepository>, receivers: seq<Receiver>, i: nat, j: nat, k: nat)
    requires i < |receivers| && j < |receivers[i].resources| && k < |repos|
    requires receivers[i].receiverType == DockerHubReceiver
    requires receivers[i].webhookPath != ""
    requires RepositoryKey(repos[k]) == ReferenceKey(receivers[i], receivers[i].resources[j])
    requires forall l :: k < l < |repos| ==> RepositoryKey(repos[l]) != RepositoryKey(repos[k])
    ensures repos[k].image + ":" + receivers[i].namespace + "/" + receivers[i].name in Correlate(repos, receivers)
  {
    var index := IndexRepositories(repos);
    IndexLastWriter(repos, k);
    var e := Entry(repos[k], receivers[i]);
    assert Emits(index, receivers[i], receivers[i].resources[j], e);
    EntriesComplete(index, receivers, i, j, e);
    var entries := Entries(index, receivers);
    var p :| 0 <= p < |entries| && entries[p] == e;
    LastWinsKeys(entries, e.0);
    assert e.0 == repos[k].image + ":" + receivers[i].namespace + "/" + receivers[i].name;
  }

  /** What such a reference yields is stored: under "image:namespace/name"
      lies the webhook for that image with the receiver's "namespace/name" and
      webhook path. This needs two facts Kubernetes guarantees: no other
      receiver shares the receiver's namespace and name, and namespaces hold no
      ":" and names no "/". */
  lemma CorrelateStores(repos: seq<ImageRepository>, receivers: seq<Receiver>, i: nat, j: nat, k: nat)
    requires i < |receivers| && j < |receivers[i].resources| && k < |repos|
    requires receivers[i].receiverType == DockerHubReceiver
    requires receivers[i].webhookPath != ""
    requires RepositoryKey(repos[k]) == ReferenceKey(receivers[i], receivers[i].resources[j])
    requires forall l :: k < l < |repos| ==> RepositoryKey(repos[l]) != RepositoryKey(repos[k])
    requires forall l :: 0 <= l < |receivers| && l != i ==>
               receivers[l].namespace != receivers[i].namespace || receivers[l].name != receivers[i].name
    requires forall l :: 0 <= l < |receivers| ==> ':' !in receivers[l].namespace && '/' !in receivers[l].name
    ensures var key := repos[k].image + ":" + receivers[i].namespace + "/" + receivers[i].name;
            key in Correlate(repos, receivers) &&
            Correlate(repos, receivers)[key] ==
              RepositoryReceiver(repos[k].image, receivers[i].namespace + "/" + receivers[i].name,
                                 receivers[i].webhookPath)
  {
    var key := repos[k].image + ":" + receivers[i].namespace + "/" + receivers[i].name;
    CorrelateComplete(repos, receivers, i, j, k);
    CorrelateSound(repos, receivers, key);
    var index := IndexRepositories(repos);
    var v := Correlate(repos, receivers)[key];
    var i', j' :| 0 <= i' < |receivers| && 0 <= j' < |receivers[i'].resources|
                  && ReferenceKey(receivers[i'], receivers[i'].resources[j']) in index
                  && v == RepositoryReceiver(
                            index[ReferenceKey(receivers[i'], receivers[i'].resources[j'])].image,
                            receivers[i'].namespace + "/" + receivers[i'].name,
                            receivers[i'].webhookPath);
    var image' := v.repository;
    assert key == image' + ":" + receivers[i'].namespace + "/" + receivers[i'].name;
    SeparatorSplit('/', repos[k].image + ":" + receivers[i].namespace, receivers[i].name,
                   image' + ":" + receivers[i'].namespace, receivers[i'].name);
    SeparatorSplit(':', repos[k].image, receivers[i].namespace, image', receivers[i'].namespace);
    assert i' == i;
  }

  /** A receiver that is not of the Docker Hub type, or has an empty webhook
      path, changes nothing wherever it stands in the receiver list. */
  lemma IgnoredReceiverContributesNothing(repos: seq<ImageRepository>, a: seq<Receiver>, r: Receiver, b: seq<Receiver>)
    requires r.receiverType != DockerHubReceiver || r.webhookPath == ""
    ensures Correlate(repos, a + [r] + b) == Correlate(repos, a + b)
  {
    var index := IndexRepositories(repos);
    if r.receiverType == DockerHubReceiver {
      InactiveReferencesInsertNothing(index, r, r.resources);
    }
    assert ReceiverEntries(index, r) == [];
    EntriesAppend(index, a + [r], b);
    EntriesStep(index, a, r);
    assert Entries(index, a) + [] == Entries(index, a);
    EntriesAppend(index, a, b);
  }

  /** Two entries one receiver inserts under the same key are the same entry. */
  lemma ReceiverEntriesAgree(index: map<string, ImageRepository>, r: Receiver,
                             x: (string, RepositoryReceiver), y: (string, RepositoryReceiver))
    requires x in ReferencesEntries(index, r, r.resources) && y in ReferencesEntries(index, r, r.resources)
    requires x.0 == y.0
    ensures x == y
  {
    var jx := ReferencesEntriesSound(index, r, r.resources, x);
    var jy := ReferencesEntriesSound(index, r, r.resources, y);
    var ix := index[ReferenceKey(r, r.resources[jx])].image;
    var iy := index[ReferenceKey(r, r.resources[jy])].image;
    assert x.0 == ix + ":" + ShortKey(r) && y.0 == iy + ":" + ShortKey(r);
    assert |ix| == |iy|;
    assert ix == x.0[..|ix|] && iy == y.0[..|iy|];
  }

  /** A key inserted by the last receiver maps to that receiver's webhook,
      whatever earlier receivers inserted under the same key. */
  lemma LaterReceiverOverwrites(repos: seq<ImageRepository>, receivers: seq<Receiver>, r: Receiver, j: nat)
    requires j < |r.resources|
    requires r.receiverType == DockerHubReceiver && r.webhookPath != ""
    requires ReferenceKey(r, r.resources[j]) in IndexRepositories(repos)
    ensures var e := Entry(IndexRepositories(repos)[ReferenceKey(r, r.resources[j])], r);
            e.0 in Correlate(repos, receivers + [r]) && Correlate(repos, receivers + [r])[e.0] == e.1
  {
    var index := IndexRepositories(repos);
    var e := Entry(index[ReferenceKey(r, r.resources[j])], r);
    var tail := ReceiverEntries(index, r);
    EntriesStep(index, receivers, r);
    LastWinsAppend(Entries(index, receivers), tail);
    assert e in ReferenceEntry(index, r, r.resources[j]);
    ReferencesEntriesComplete(index, r, r.resources, j, e);
    var p :| 0 <= p < |tail| && tail[p] == e;
    LastWinsKeys(tail, e.0);
    LastWinsValue(tail, e.0);
    var q :| 0 <= q < |tail| && tail[q] == (e.0, LastWins(tail)[e.0]);
    ReceiverEntriesAgree(index, r, e, tail[q]);
  }

  // The lookup key

  /** A string split at its last occurrence of a separator determines both parts. */
  lemma SeparatorSplit(sep: char, a: string, b: string, c: string, d: string)
    requires sep !in b && sep !in d
    requires a + [sep] + b == c + [sep] + d
    ensures a == c && b == d
  {
    var s := a + [sep] + b;
    var t := c + [sep] + d;
    assert |b| == |d| by {
      assert s[|a|] == t[|a|] == sep;
      assert s[|c|] == t[|c|] == sep;
    }
    assert a == s[..|a|] && c == t[..|c|];
    assert b == s[|a| + 1..] && d == t[|c| + 1..];
  }

  /** Two identity keys are equal exactly when their four parts are, provided
      kind, namespace and name contain no "/" (the API version may). */
  lemma ObjectKeyInjective(
    apiVersion: string, kind: string, namespace: string, name: string,
    apiVersion': string, kind': string, namespace': string, name': string)
    requires '/' !in kind && '/' !in namespace && '/' !in name
    requires '/' !in kind' && '/' !in namespace' && '/' !in name'
    ensures ObjectKey(apiVersion, kind, namespace, name) == ObjectKey(apiVersion', kind', namespace', name')
            <==> apiVersion == apiVersion' && kind == kind' && namespace == namespace' && name == name'
  {
    if ObjectKey(apiVersion, kind, namespace, name) == ObjectKey(apiVersion', kind', namespace', name') {
      SeparatorSplit('/', apiVersion + "/" + kind + "/" + namespace, name, apiVersion' + "/" + kind' + "/" + namespace', name');
      SeparatorSplit('/', apiVersion + "/" + kind, namespace, apiVersion' + "/" + kind', namespace');
      SeparatorSplit('/', apiVersion, kind, apiVersion', kind');
    }
  }

  /** A reference names a repository exactly when the repository has API
      version image.toolkit.fluxcd.io/v1beta2 (whatever the reference says),
      the reference's kind and name, and the reference's namespace, or the
      receiver's own namespace when the reference has none. */
  lemma ReferenceMatchesRepository(receiver: Receiver, ref: ObjectReference, repo: ImageRepository)
    requires '/' !in ref.kind && '/' !in ref.namespace && '/' !in ref.name && '/' !in receiver.namespace
    requires '/' !in repo.kind && '/' !in repo.namespace && '/' !in repo.name
    ensures ReferenceKey(receiver, ref) == RepositoryKey(repo) <==>
              && repo.apiVersion == "image.toolkit.fluxcd.io/v1beta2"
              && repo.kind == ref.kind
              && repo.namespace == (if ref.namespace == "" then receiver.namespace else ref.namespace)
              && repo.name == ref.name
  {
    ObjectKeyInjective(ImageRepositoryApiVersion, ref.kind, EffectiveNamespace(receiver, ref), ref.name,
                       repo.apiVersion, repo.kind, repo.namespace, repo.name);
  }
}
