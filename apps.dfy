/** The application manager of internal/apps/manager.go: the deployment
    readiness classifier, the listing and status reports built from
    deployment snapshots, the manifest loader and the deploy sequence. */
module Apps {
  import opened Results

  // ---------------------------------------------------------------------
  // Deployment snapshots and the readiness classifier

  datatype Container = Container(name: string, image: string)

  datatype DeploymentCondition = DeploymentCondition(condType: string, status: string,
                                                     reason: string, message: string)

  /** One deployment as the API returns it.  The desired replica count is
      always present; `createdAt` is the creation timestamp, kept opaque. */
  datatype DeploymentSnapshot = DeploymentSnapshot(
    name: string,
    namespace: string,
    desiredReplicas: nat,
    readyReplicas: nat,
    createdAt: int,
    containers: seq<Container>,
    conditions: seq<DeploymentCondition>)

  datatype Phase = Ready | Failed | Degraded | Pending

  /** A Progressing condition that reports a stalled or failed rollout. */
  predicate MarksFailure(c: DeploymentCondition) {
    c.condType == "Progressing" && (c.status == "False" || c.reason == "ProgressDeadlineExceeded")
  }

  predicate HasFailedProgress(conditions: seq<DeploymentCondition>) {
    exists i :: 0 <= i < |conditions| && MarksFailure(conditions[i])
  }

  /** The scan over the conditions that returns at the first failing
      Progressing condition. */
  function ScanConditions(conditions: seq<DeploymentCondition>): (failed: bool)
    ensures failed <==> HasFailedProgress(conditions)
  {
    if conditions == [] then false
    else
      var c := conditions[0];
      if c.condType == "Progressing" && c.status == "False" then true
      else if c.condType == "Progressing" && c.reason == "ProgressDeadlineExceeded" then true
      else
        var rest := ScanConditions(conditions[1..]);
        assert forall i :: 1 <= i < |conditions| ==> conditions[i] == conditions[1..][i - 1];
        rest
  }

  /** getDeploymentStatus: an ordered, first-match classification. */
  function DeploymentPhase(d: DeploymentSnapshot): (p: Phase)
    ensures p == Ready <==> d.readyReplicas == d.desiredReplicas
    ensures p == Failed <==> d.readyReplicas != d.desiredReplicas && HasFailedProgress(d.conditions)
    ensures p == Degraded <==>
              d.readyReplicas != d.desiredReplicas && !HasFailedProgress(d.conditions) && d.readyReplicas > 0
    ensures p == Pending <==>
              d.readyReplicas != d.desiredReplicas && !HasFailedProgress(d.conditions) && d.readyReplicas == 0
  {
    if d.readyReplicas == d.desiredReplicas then Ready
    else if ScanConditions(d.conditions) then Failed
    else if d.readyReplicas > 0 then Degraded
    else Pending
  }

  /** Full readiness is never masked by a stale Progressing=False condition. */
  lemma ReadyDespiteStaleCondition(d: DeploymentSnapshot, stale: DeploymentCondition)
    requires d.readyReplicas == d.desiredReplicas
    ensures DeploymentPhase(d.(conditions := d.conditions + [stale])) == Ready
  {
  }

  /** The three worked classifications: 0 of 3 with Progressing=False is
      Failed, 1 of 3 with no disqualifying condition is Degraded, 0 of 3 with
      no Progressing condition is Pending. */
  lemma ClassifierExamples(name: string, namespace: string, createdAt: int, containers: seq<Container>)
    ensures DeploymentPhase(DeploymentSnapshot(name, namespace, 3, 0, createdAt, containers,
              [DeploymentCondition("Progressing", "False", "", "")])) == Failed
    ensures DeploymentPhase(DeploymentSnapshot(name, namespace, 3, 1, createdAt, containers,
              [DeploymentCondition("Progressing", "True", "ReplicaSetUpdated", "")])) == Degraded
    ensures DeploymentPhase(DeploymentSnapshot(name, namespace, 3, 0, createdAt, containers,
              [DeploymentCondition("Available", "False", "MinimumReplicasUnavailable", "")])) == Pending
  {
  }

  // ---------------------------------------------------------------------
  // Reports built from snapshots

  datatype Application = Application(
    name: string,
    namespace: string,
    readyReplicas: nat,
    totalReplicas: nat,
    image: string,
    status: Phase)

  datatype Condition = Condition(condType: string, status: string, reason: string)

  datatype ApplicationStatus = ApplicationStatus(
    conditions: seq<Condition>,
    createdAt: int,
    name: string,
    namespace: string,
    phase: Phase,
    image: string,
    readyReplicas: nat,
    totalReplicas: nat)

  datatype AppError =
    | ListDeploymentsFailed(cause: string)
    | GetDeploymentFailed(cause: string)

  /** The image of the first container, or empty when there is none. */
  function FirstImage(d: DeploymentSnapshot): string {
    if |d.containers| > 0 then d.containers[0].image else ""
  }

  /** `app` is the listing entry for deployment `d`. */
  predicate Describes(app: Application, d: DeploymentSnapshot) {
    && app.name == d.name
    && app.namespace == d.namespace
    && app.readyReplicas == d.readyReplicas
    && app.totalReplicas == d.desiredReplicas
    && app.image == FirstImage(d)
    && app.status == DeploymentPhase(d)
  }

  /** List: one Application per listed deployment, in order. */
  method List(listing: Result<seq<DeploymentSnapshot>, string>)
    returns (r: Result<seq<Application>, AppError>)
    ensures listing.Err? ==> r == Err(ListDeploymentsFailed(listing.error))
    ensures listing.Ok? ==> r.Ok? && |r.value| == |listing.value|
    ensures listing.Ok? ==> forall i :: 0 <= i < |listing.value| ==> Describes(r.value[i], listing.value[i])
  {
    if listing.Err? {
      return Err(ListDeploymentsFailed(listing.error));
    }
    var deployments := listing.value;
    var applications: seq<Application> := [];
    for i := 0 to |deployments|
      invariant |applications| == i
      invariant forall k :: 0 <= k < i ==> Describes(applications[k], deployments[k])
    {
      var deployment := deployments[i];
      var app := Application(deployment.name, deployment.namespace, deployment.readyReplicas,
                             deployment.desiredReplicas, "", DeploymentPhase(deployment));
      if |deployment.containers| > 0 {
        app := app.(image := deployment.containers[0].image);
      }
      applications := applications + [app];
    }
    r := Ok(applications);
  }

  /** GetStatus: the detailed status of one deployment, with its conditions
      copied in order (type, status and reason; the message is dropped). */
  method GetStatus(fetched: Result<DeploymentSnapshot, string>)
    returns (r: Result<ApplicationStatus, AppError>)
    ensures fetched.Err? ==> r == Err(GetDeploymentFailed(fetched.error))
    ensures fetched.Ok? ==>
              var d := fetched.value;
              && r.Ok?
              && r.value.name == d.name
              && r.value.namespace == d.namespace
              && r.value.phase == DeploymentPhase(d)
              && r.value.readyReplicas == d.readyReplicas
              && r.value.totalReplicas == d.desiredReplicas
              && r.value.createdAt == d.createdAt
              && r.value.image == FirstImage(d)
              && |r.value.conditions| == |d.conditions|
              && forall i :: 0 <= i < |d.conditions| ==>
                   r.value.conditions[i] == Condition(d.conditions[i].condType, d.conditions[i].status,
                                                      d.conditions[i].reason)
  {
    if fetched.Err? {
      return Err(GetDeploymentFailed(fetched.error));
    }
    var deployment := fetched.value;
    var image := "";
    if |deployment.containers| > 0 {
      image := deployment.containers[0].image;
    }
    var conditions: seq<Condition> := [];
    for i := 0 to |deployment.conditions|
      invariant |conditions| == i
      invariant forall k :: 0 <= k < i ==>
                  conditions[k] == Condition(deployment.conditions[k].condType,
                                             deployment.conditions[k].status,
                                             deployment.conditions[k].reason)
    {
      var condition := deployment.conditions[i];
      conditions := conditions + [Condition(condition.condType, condition.status, condition.reason)];
    }
    r := Ok(ApplicationStatus(conditions, deployment.createdAt, deployment.name, deployment.namespace,
                              DeploymentPhase(deployment), image, deployment.readyReplicas,
                              deployment.desiredReplicas));
  }

  // ---------------------------------------------------------------------
  // Manifest files

  /** A decoded manifest document: kind, name and namespace as first-class
      fields, everything else as an opaque field map. */
  datatype Manifest = Manifest(kind: string, name: string, namespace: string,
                               fields: map<string, string>)

  /** One decode step of a file's document stream; the end of the sequence
      is the end of the stream. */
  datatype Decoded = Doc(manifest: Manifest) | NilDoc | DecodeErr(cause: string)

  datatype FileRead = ReadOk(documents: seq<Decoded>) | ReadErr(cause: string)

  /** One path visited by the directory walk, in walk order: the error the
      walk reported for it, if any, and what reading and decoding it gives. */
  datatype Visit = Visit(path: string, walkErr: Option<string>, file: FileRead)

  datatype LoadError =
    | WalkFailed(cause: string)
    | ReadFailed(path: string, cause: string)
    | DecodeFailed(path: string, cause: string)

  /** Manifests gathered so far, and the error that stopped the load, if any. */
  datatype Loaded = Loaded(manifests: seq<Manifest>, error: Option<LoadError>)

  /** The extension scan of path/filepath.Ext on a prefix: from position
      `i` backwards, stop at a separator, return the tail from the first dot. */
  function ExtFrom(path: string, i: nat): (e: string)
    requires i <= |path|
    decreases i
  {
    if i == 0 then ""
    else if path[i - 1] == '/' then ""
    else if path[i - 1] == '.' then path[i - 1..]
    else ExtFrom(path, i - 1)
  }

  /** The extension of the last path element, dot included, or empty. */
  function Ext(path: string): string {
    ExtFrom(path, |path|)
  }

  predicate IsManifestPath(path: string) {
    Ext(path) == ".yaml" || Ext(path) == ".yml"
  }

  predicate EndsWith(s: string, suffix: string) {
    |suffix| <= |s| && s[|s| - |suffix|..] == suffix
  }

  lemma {:induction false} ExtFromReachesDot(path: string, i: nat, k: nat)
    requires k < i <= |path| && path[k] == '.'
    requires forall j :: k < j < i ==> path[j] != '.' && path[j] != '/'
    ensures ExtFrom(path, i) == path[k..]
    decreases i
  {
    if i - 1 != k {
      ExtFromReachesDot(path, i - 1, k);
    }
  }

  /** The extension found is empty or a dot-led tail of the path. */
  lemma {:induction false} ExtFromIsTail(path: string, i: nat)
    requires i <= |path|
    ensures var e := ExtFrom(path, i); e == [] || (|e| <= |path| && e == path[|path| - |e|..] && e[0] == '.')
    decreases i
  {
    if i > 0 && path[i - 1] != '/' && path[i - 1] != '.' {
      ExtFromIsTail(path, i - 1);
    }
  }

  /** A path has extension `ext` (a dot followed by no dot or separator)
      exactly when it ends with `ext`. */
  lemma ExtIffSuffix(path: string, ext: string)
    requires |ext| > 0 && ext[0] == '.'
    requires forall j :: 1 <= j < |ext| ==> ext[j] != '.' && ext[j] != '/'
    ensures Ext(path) == ext <==> EndsWith(path, ext)
  {
    ExtFromIsTail(path, |path|);
    if EndsWith(path, ext) {
      var k := |path| - |ext|;
      forall j | k < j < |path| ensures path[j] != '.' && path[j] != '/' {
        assert path[j] == ext[j - k];
      }
      ExtFromReachesDot(path, |path|, k);
    }
  }

  /** Only `.yaml` and `.yml` files are read, case-sensitively. */
  lemma ManifestPathIff(path: string)
    ensures IsManifestPath(path) <==> EndsWith(path, ".yaml") || EndsWith(path, ".yml")
  {
    ExtIffSuffix(path, ".yaml");
    ExtIffSuffix(path, ".yml");
  }

  // Specification of the load, one decode step and one visit at a time.

  function Prepend(ms: seq<Manifest>, l: Loaded): Loaded {
    Loaded(ms + l.manifests, l.error)
  }

  /** Decoding one file's stream: nil documents are skipped, the first
      decode error stops the stream. */
  function DecodeStream(path: string, docs: seq<Decoded>): Loaded {
    if docs == [] then Loaded([], None)
    else match docs[0]
      case DecodeErr(cause) => Loaded([], Some(DecodeFailed(path, cause)))
      case NilDoc => DecodeStream(path, docs[1..])
      case Doc(m) => Prepend([m], DecodeStream(path, docs[1..]))
  }

  /** What one visit of the walk contributes. */
  function VisitOne(v: Visit): Loaded {
    if v.walkErr.Some? then Loaded([], Some(WalkFailed(v.walkErr.value)))
    else if !IsManifestPath(v.path) then Loaded([], None)
    else match v.file
      case ReadErr(cause) => Loaded([], Some(ReadFailed(v.path, cause)))
      case ReadOk(docs) => DecodeStream(v.path, docs)
  }

  /** Continue with the rest of the walk unless `l` stopped with an error. */
  function ThenLoad(l: Loaded, rest: seq<Visit>): Loaded
    decreases |rest| + 1, 0
  {
    if l.error.Some? then l else Prepend(l.manifests, Load(rest))
  }

  function Load(walk: seq<Visit>): Loaded
    decreases |walk|, 1
  {
    if walk == [] then Loaded([], None) else ThenLoad(VisitOne(walk[0]), walk[1..])
  }

  /** The decode loop of readManifests for one file. */
  method DecodeFile(path: string, docs: seq<Decoded>) returns (manifests: seq<Manifest>, err: Option<LoadError>)
    ensures Loaded(manifests, err) == DecodeStream(path, docs)
  {
    manifests := [];
    var j := 0;
    while j < |docs|
      invariant 0 <= j <= |docs|
      invariant Prepend(manifests, DecodeStream(path, docs[j..])) == DecodeStream(path, docs)
    {
      assert docs[j..][1..] == docs[j + 1..];
      match docs[j] {
        case DecodeErr(cause) =>
          return manifests, Some(DecodeFailed(path, cause));
        case NilDoc =>
        case Doc(m) =>
          manifests := manifests + [m];
      }
      j := j + 1;
    }
    err := None;
  }

  /** readManifests.  Walk entries are handled in order; the first walk,
      read or decode error ends the load and is returned together with the
      manifests gathered before it. */
  method ReadManifests(walk: seq<Visit>) returns (manifests: seq<Manifest>, err: Option<LoadError>)
    ensures Loaded(manifests, err) == Load(walk)
  {
    manifests := [];
    var i := 0;
    while i < |walk|
      invariant 0 <= i <= |walk|
      invariant Prepend(manifests, Load(walk[i..])) == Load(walk)
    {
      var visit := walk[i];
      assert walk[i..][1..] == walk[i + 1..];
      if visit.walkErr.Some? {
        return manifests, Some(WalkFailed(visit.walkErr.value));
      }
      if Ext(visit.path) != ".yaml" && Ext(visit.path) != ".yml" {
        i := i + 1;
        continue;
      }
      if visit.file.ReadErr? {
        return manifests, Some(ReadFailed(visit.path, visit.file.cause));
      }
      var found, decodeErr := DecodeFile(visit.path, visit.file.documents);
      manifests := manifests + found;
      if decodeErr.Some? {
        return manifests, decodeErr;
      }
      i := i + 1;
    }
    err := None;
  }

  // Reference description of the load, and the lemmas tying it to Load.

  /** The objects of a document stream: nil documents and errors left out. */
  function Objects(docs: seq<Decoded>): seq<Manifest> {
    if docs == [] then []
    else (if docs[0].Doc? then [docs[0].manifest] else []) + Objects(docs[1..])
  }

  predicate StreamFails(docs: seq<Decoded>) {
    exists k :: 0 <= k < |docs| && docs[k].DecodeErr?
  }

  /** A visit that makes the load fail: a walk error on any path, or a read
      or decode error on a manifest file. */
  predicate VisitFails(v: Visit) {
    v.walkErr.Some? ||
    (IsManifestPath(v.path) && (v.file.ReadErr? || StreamFails(v.file.documents)))
  }

  /** The objects a visit yields when nothing fails: none for other files. */
  function Contribution(v: Visit): seq<Manifest> {
    if v.walkErr.None? && IsManifestPath(v.path) && v.file.ReadOk? then Objects(v.file.documents) else []
  }

  /** All objects of all manifest files, in walk order and then stream order. */
  function AllObjects(walk: seq<Visit>): seq<Manifest> {
    if walk == [] then [] else Contribution(walk[0]) + AllObjects(walk[1..])
  }

  lemma {:induction false} DecodeStreamClean(path: string, docs: seq<Decoded>)
    requires !StreamFails(docs)
    ensures DecodeStream(path, docs) == Loaded(Objects(docs), None)
  {
    if docs != [] {
      assert !docs[0].DecodeErr?;
      assert forall k :: 0 <= k < |docs[1..]| ==> docs[1..][k] == docs[k + 1];
      DecodeStreamClean(path, docs[1..]);
    }
  }

  /** The first decode error of a stream is the one reported, with the file's
      path, after the objects that precede it. */
  lemma {:induction false} DecodeStreamFirstError(path: string, docs: seq<Decoded>, k: nat)
    requires k < |docs| && docs[k].DecodeErr?
    requires forall j :: 0 <= j < k ==> !docs[j].DecodeErr?
    ensures DecodeStream(path, docs) == Loaded(Objects(docs[..k]), Some(DecodeFailed(path, docs[k].cause)))
  {
    if k > 0 {
      assert docs[1..][k - 1] == docs[k];
      assert docs[..k][1..] == docs[1..][..k - 1];
      DecodeStreamFirstError(path, docs[1..], k - 1);
    }
  }

  lemma {:induction false} DecodeStreamFailsIff(path: string, docs: seq<Decoded>)
    ensures DecodeStream(path, docs).error.Some? <==> StreamFails(docs)
  {
    if docs != [] {
      DecodeStreamFailsIff(path, docs[1..]);
      assert forall k :: 0 <= k < |docs[1..]| ==> docs[1..][k] == docs[k + 1];
      if StreamFails(docs) && !docs[0].DecodeErr? {
        var k :| 0 < k < |docs| && docs[k].DecodeErr?;
        assert docs[1..][k - 1].DecodeErr?;
      }
    }
  }

  lemma VisitOneFailsIff(v: Visit)
    ensures VisitOne(v).error.Some? <==> VisitFails(v)
    ensures !VisitFails(v) ==> VisitOne(v) == Loaded(Contribution(v), None)
  {
    if v.walkErr.None? && IsManifestPath(v.path) && v.file.ReadOk? {
      DecodeStreamFailsIff(v.path, v.file.documents);
      if !StreamFails(v.file.documents) {
        DecodeStreamClean(v.path, v.file.documents);
      }
    }
  }

  /** The load fails exactly when some visit fails. */
  lemma {:induction false} LoadFailsIff(walk: seq<Visit>)
    ensures Load(walk).error.Some? <==> exists i :: 0 <= i < |walk| && VisitFails(walk[i])
  {
    if walk != [] {
      VisitOneFailsIff(walk[0]);
      LoadFailsIff(walk[1..]);
      assert forall i :: 0 <= i < |walk[1..]| ==> walk[1..][i] == walk[i + 1];
      if (exists i :: 0 <= i < |walk| && VisitFails(walk[i])) && !VisitFails(walk[0]) {
        var i :| 0 < i < |walk| && VisitFails(walk[i]);
        assert VisitFails(walk[1..][i - 1]);
      }
    }
  }

  /** Without any failure the load yields every object of every manifest
      file, in walk order and then stream order, and nothing else. */
  lemma {:induction false} LoadClean(walk: seq<Visit>)
    requires forall i :: 0 <= i < |walk| ==> !VisitFails(walk[i])
    ensures Load(walk) == Loaded(AllObjects(walk), None)
  {
    if walk != [] {
      VisitOneFailsIff(walk[0]);
      assert forall i :: 0 <= i < |walk[1..]| ==> walk[1..][i] == walk[i + 1];
      LoadClean(walk[1..]);
    }
  }

  /** A walk whose first visit fails stops there. */
  lemma FailingHead(walk: seq<Visit>)
    requires walk != [] && VisitFails(walk[0])
    ensures VisitOne(walk[0]).error.Some? && Load(walk) == VisitOne(walk[0])
  {
    VisitOneFailsIff(walk[0]);
  }

  /** A walk whose first visit does not fail goes on with the rest. */
  lemma CleanHead(walk: seq<Visit>)
    requires walk != [] && !VisitFails(walk[0])
    ensures Load(walk) == Prepend(Contribution(walk[0]), Load(walk[1..]))
  {
    VisitOneFailsIff(walk[0]);
  }

  lemma PrependTwice(whole: Loaded, a: seq<Manifest>, tail: Loaded, b: seq<Manifest>, last: Loaded)
    requires whole == Prepend(a, tail) && tail == Prepend(b, last)
    ensures whole == Prepend(a + b, last)
  {
    assert a + (b + last.manifests) == (a + b) + last.manifests;
  }

  lemma AllObjectsOfPrefix(walk: seq<Visit>, i: nat)
    requires 0 < i <= |walk|
    ensures AllObjects(walk[..i]) == Contribution(walk[0]) + AllObjects(walk[1..][..i - 1])
  {
    assert walk[..i][1..] == walk[1..][..i - 1];
  }

  /** The first failing visit decides the error; the objects of the visits
      before it have been gathered. */
  lemma {:induction false} LoadFirstFailure(walk: seq<Visit>, i: nat)
    requires i < |walk| && VisitFails(walk[i])
    requires forall j :: 0 <= j < i ==> !VisitFails(walk[j])
    ensures VisitOne(walk[i]).error.Some?
    ensures Load(walk) == Prepend(AllObjects(walk[..i]), VisitOne(walk[i]))
  {
    if i == 0 {
      FailingHead(walk);
      assert walk[..0] == [];
    } else {
      var rest := walk[1..];
      assert rest[i - 1] == walk[i];
      forall j | 0 <= j < i - 1 ensures !VisitFails(rest[j]) {
        assert rest[j] == walk[j + 1];
      }
      LoadFirstFailure(rest, i - 1);
      CleanHead(walk);
      AllObjectsOfPrefix(walk, i);
      PrependTwice(Load(walk), Contribution(walk[0]), Load(rest), AllObjects(rest[..i - 1]), VisitOne(walk[i]));
    }
  }

  /** Which error the failing visit reports: the walk's own error, or the
      read or first decode error of that file, naming its path. */
  lemma VisitOneError(v: Visit)
    ensures v.walkErr.Some? ==>
              VisitOne(v).error == Some(WalkFailed(v.walkErr.value)) && VisitOne(v).manifests == []
    ensures v.walkErr.None? && IsManifestPath(v.path) && v.file.ReadErr? ==>
              VisitOne(v).error == Some(ReadFailed(v.path, v.file.cause)) && VisitOne(v).manifests == []
    ensures forall k :: v.walkErr.None? && IsManifestPath(v.path) && v.file.ReadOk? &&
                        0 <= k < |v.file.documents| && v.file.documents[k].DecodeErr? &&
                        (forall j :: 0 <= j < k ==> !v.file.documents[j].DecodeErr?) ==>
              VisitOne(v) == Loaded(Objects(v.file.documents[..k]),
                                    Some(DecodeFailed(v.path, v.file.documents[k].cause)))
  {
    forall k | v.walkErr.None? && IsManifestPath(v.path) && v.file.ReadOk? &&
               0 <= k < |v.file.documents| && v.file.documents[k].DecodeErr? &&
               (forall j :: 0 <= j < k ==> !v.file.documents[j].DecodeErr?)
      ensures VisitOne(v) == Loaded(Objects(v.file.documents[..k]),
                                    Some(DecodeFailed(v.path, v.file.documents[k].cause)))
    {
      DecodeStreamFirstError(v.path, v.file.documents, k);
    }
  }

  /** A file holding one document and one empty document loads as exactly
      that one document. */
  lemma OneFileWithEmptyDocument(path: string, m: Manifest)
    requires EndsWith(path, ".yaml")
    ensures Load([Visit(path, None, ReadOk([Doc(m), NilDoc]))]) == Loaded([m], None)
  {
    ManifestPathIff(path);
    var docs := [Doc(m), NilDoc];
    assert docs[1..] == [NilDoc] && [NilDoc][1..] == [];
    assert DecodeStream(path, [NilDoc]) == Loaded([], None);
    assert DecodeStream(path, docs) == Loaded([m], None);
    var walk := [Visit(path, None, ReadOk(docs))];
    assert walk[1..] == [];
  }

  // ---------------------------------------------------------------------
  // Deploy

  /** The deploy request: application name, target namespace default,
      manifest directory and dry-run flag. */
  datatype Deployment = Deployment(name: string, namespace: string, manifestPath: string, dryRun: bool)

  datatype PreviewEntry = PreviewEntry(kind: string, name: string)

  /** What a deploy does: fail with the load error, preview the loaded
      manifests (dry run), or give every loaded manifest its namespace. */
  datatype DeployOutcome =
    | DeployFailed(error: LoadError)
    | Previewed(preview: seq<PreviewEntry>, manifests: seq<Manifest>)
    | Applied(manifests: seq<Manifest>)

  /** Deploy.  `walk` is the directory walk under `deployment.manifestPath`.
      A load error aborts before either branch; a dry run lists kind and name
      per manifest and changes nothing; otherwise every manifest with an empty
      namespace gets the target namespace, in place, and the rest is kept. */
  method Deploy(deployment: Deployment, walk: seq<Visit>) returns (out: DeployOutcome)
    ensures Load(walk).error.Some? ==> out == DeployFailed(Load(walk).error.value)
    ensures Load(walk).error.None? && deployment.dryRun ==>
              var ms := Load(walk).manifests;
              && out.Previewed?
              && out.manifests == ms
              && |out.preview| == |ms|
              && forall i :: 0 <= i < |ms| ==> out.preview[i] == PreviewEntry(ms[i].kind, ms[i].name)
    ensures Load(walk).error.None? && !deployment.dryRun ==>
              var ms := Load(walk).manifests;
              && out.Applied?
              && |out.manifests| == |ms|
              && forall i :: 0 <= i < |ms| ==>
                   && out.manifests[i].kind == ms[i].kind
                   && out.manifests[i].name == ms[i].name
                   && out.manifests[i].fields == ms[i].fields
                   && (ms[i].namespace == "" ==> out.manifests[i].namespace == deployment.namespace)
                   && (ms[i].namespace != "" ==> out.manifests[i].namespace == ms[i].namespace)
  {
    var manifests, err := ReadManifests(walk);
    if err.Some? {
      return DeployFailed(err.value);
    }

    if deployment.dryRun {
      var preview: seq<PreviewEntry> := [];
      for i := 0 to |manifests|
        invariant |preview| == i
        invariant forall k :: 0 <= k < i ==> preview[k] == PreviewEntry(manifests[k].kind, manifests[k].name)
      {
        preview := preview + [PreviewEntry(manifests[i].kind, manifests[i].name)];
      }
      return Previewed(preview, manifests);
    }

    var applied := new Manifest[|manifests|](i requires 0 <= i < |manifests| => manifests[i]);
    for i := 0 to applied.Length
      invariant forall k :: 0 <= k < i ==>
                  && applied[k].kind == manifests[k].kind
                  && applied[k].name == manifests[k].name
                  && applied[k].fields == manifests[k].fields
                  && applied[k].namespace == (if manifests[k].namespace == "" then deployment.namespace
                                              else manifests[k].namespace)
      invariant forall k :: i <= k < applied.Length ==> applied[k] == manifests[k]
    {
      if applied[i].namespace == "" {
        applied[i] := applied[i].(namespace := deployment.namespace);
      }
    }
    out := Applied(applied[..]);
  }
}
