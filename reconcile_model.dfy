/**
 * The reconciler's view of the world and its decision procedure
 * (controllers/oauth2client_controller.go).
 *
 * The Kubernetes API and the registry are abstract stores: resources and
 * secrets keyed by namespace and name, registry entries keyed by client id,
 * and a ghost log of the registry calls made, which the code does not
 * keep but which lets the model say what was sent to the registry. Which external calls fail, and the
 * credentials the registry issues for a client registered without any, are
 * given as a `Faults` record.
 */
module ReconcileModel {
  import opened Wrappers
  import opened Hydra
  import opened V1alpha1

  const ClientIDKey := "client_id"
  const ClientSecretKey := "client_secret"
  const OwnerLabel := "owner"

  datatype NamespacedName = NamespacedName(namespace: string, name: string)

  /** A secret; `labels` is Go's label map, which may be nil. */
  datatype Secret = Secret(labels: Option<map<string, string>>, data: map<string, Bytes>)

  /** An error returned by a call; `NotFound` is what `apierrs.IsNotFound` recognises. */
  datatype Error = NotFound(message: string) | Failed(message: string)

  /** A call on the registry interface (HydraClientInterface). */
  datatype RegistryCall =
    | GetCall(id: Bytes)
    | PostCall(body: OAuth2ClientJSON)
    | PutCall(body: OAuth2ClientJSON)
    | DeleteCall(id: Bytes)

  /**
   * Which external calls fail during one pass, with the error text they
   * return. Every call kind but Delete is made at most once per pass; a
   * Delete fails for the ids in `hydraDelete`. `issuedID` and
   * `issuedSecret` are what the registry allocates for a client posted
   * without credentials.
   */
  datatype Faults = Faults(
    getResource: Option<string>,
    getSecret: Option<string>,
    listSecrets: Option<string>,
    createSecret: Option<string>,
    updateSecret: Option<string>,
    updateStatus: Option<string>,
    hydraGet: Option<string>,
    hydraPost: Option<string>,
    hydraPut: Option<string>,
    hydraDelete: map<Bytes, string>,
    issuedID: Bytes,
    issuedSecret: Bytes)

  /** The stores one reconciliation pass reads and writes. */
  datatype Cluster = Cluster(
    resources: map<NamespacedName, OAuth2Client>,
    secrets: map<NamespacedName, Secret>,
    registry: map<Bytes, OAuth2ClientJSON>,
    ghost calls: seq<RegistryCall>)

  /** Every stored resource carries the name and namespace it is stored under. */
  ghost predicate WellKeyed(w: Cluster) {
    forall k :: k in w.resources ==> w.resources[k].name == k.name && w.resources[k].namespace == k.namespace
  }

  function ResourceKey(c: OAuth2Client): NamespacedName {
    NamespacedName(c.namespace, c.name)
  }

  // ---------------------------------------------------------------------
  // parseSecret

  const MissingClientID := "provided secret misses client id"
  const MissingClientPassword := "provided secret misses client password"

  /**
   * parseSecret: credentials from the two well-known keys. It fails exactly
   * when a key is missing, the client id being checked first; on success
   * both values are the stored bytes.
   */
  function ParseSecret(s: Secret): (r: Result<Oauth2ClientCredentials, Error>)
    ensures r.Success? <==> ClientIDKey in s.data && ClientSecretKey in s.data
    ensures ClientIDKey !in s.data ==> r == Failure(Failed(MissingClientID))
    ensures ClientIDKey in s.data && ClientSecretKey !in s.data ==> r == Failure(Failed(MissingClientPassword))
    ensures r.Success? ==> r.value.id == s.data[ClientIDKey] && r.value.password == Some(s.data[ClientSecretKey])
  {
    if ClientIDKey !in s.data then Failure(Failed(MissingClientID))
    else if ClientSecretKey !in s.data then Failure(Failed(MissingClientPassword))
    else Success(Oauth2ClientCredentials(s.data[ClientIDKey], Some(s.data[ClientSecretKey])))
  }

  // ---------------------------------------------------------------------
  // The registry double

  /**
   * What a successful Post stores and returns: the posted record, with an
   * id and a secret from the registry where the caller gave none.
   */
  function PostResult(o: OAuth2ClientJSON, f: Faults): (r: OAuth2ClientJSON)
    ensures r.clientID.Some? && r.secret.Some?
    ensures o.clientID.Some? ==> r.clientID == o.clientID
    ensures o.secret.Some? ==> r.secret == o.secret
    ensures r.(clientID := o.clientID, secret := o.secret) == o
  {
    o.(clientID := Some(o.clientID.GetOr(f.issuedID)), secret := Some(o.secret.GetOr(f.issuedSecret)))
  }

  /** The registry's answer to a Post under an id it already holds. */
  const PostConflict := "client id already registered"

  /**
   * Why a Post fails: the injected failure, or a conflict when the id the
   * record would be stored under is taken. A Post never replaces an entry.
   */
  function PostFailure(registry: map<Bytes, OAuth2ClientJSON>, o: OAuth2ClientJSON, f: Faults): (r: Option<string>)
    ensures r.None? <==> f.hydraPost.None? && PostResult(o, f).clientID.value !in registry
    ensures f.hydraPost.Some? ==> r == f.hydraPost
  {
    if f.hydraPost.Some? then f.hydraPost
    else if PostResult(o, f).clientID.value in registry then Some(PostConflict)
    else None
  }

  // ---------------------------------------------------------------------
  // updateReconciliationStatusError

  /** The resource with its status stamped for a failed step. */
  function StampedStatus(c: OAuth2Client, code: StatusCode, e: Error): OAuth2ClientStatus {
    OAuth2ClientStatus(c.generation, ReconciliationError(code, e.message))
  }

  /** Writes the stamped status to the stored resource; the error is the write's own. */
  ghost function StatusErrorEffect(w: Cluster, c: OAuth2Client, code: StatusCode, e: Error, f: Faults): (Cluster, Option<Error>) {
    var key := ResourceKey(c);
    if f.updateStatus.Some? then (w, Some(Failed(f.updateStatus.value)))
    else if key !in w.resources then (w, Some(NotFound("oauth2client not found")))
    else (w.(resources := w.resources[key := w.resources[key].(status := StampedStatus(c, code, e))]), None)
  }

  // ---------------------------------------------------------------------
  // registerOAuth2Client, registerOAuth2ClientWithCredentials, updateRegisteredOAuth2Client

  function SecretKeyOf(c: OAuth2Client): NamespacedName {
    NamespacedName(c.namespace, c.spec.secretName)
  }

  /** The secret created for a freshly registered client. */
  function OwnedSecret(c: OAuth2Client, created: OAuth2ClientJSON): Secret
    requires created.clientID.Some? && created.secret.Some?
  {
    Secret(Some(map[OwnerLabel := c.name]),
           map[ClientIDKey := created.clientID.value, ClientSecretKey := created.secret.value])
  }

  ghost function RegisterEffect(w: Cluster, c: OAuth2Client, f: Faults): (Cluster, Option<Error>) {
    var body := ToOAuth2ClientJSON(c);
    var w1 := w.(calls := w.calls + [PostCall(body)]);
    var failure := PostFailure(w.registry, body, f);
    if failure.Some? then
      StatusErrorEffect(w1, c, StatusRegistrationFailed, Failed(failure.value), f)
    else
      var created := PostResult(body, f);
      var w2 := w1.(registry := w1.registry[created.clientID.value := created]);
      if f.createSecret.Some? then
        StatusErrorEffect(w2, c, StatusCreateSecretFailed, Failed(f.createSecret.value), f)
      else
        (w2.(secrets := w2.secrets[SecretKeyOf(c) := OwnedSecret(c, created)]), None)
  }

  ghost function ImportEffect(w: Cluster, c: OAuth2Client, credentials: Oauth2ClientCredentials, f: Faults): (Cluster, Option<Error>) {
    var body := CredentialsOverlay(ToOAuth2ClientJSON(c), credentials);
    var w1 := w.(calls := w.calls + [PostCall(body)]);
    var failure := PostFailure(w.registry, body, f);
    if failure.Some? then
      StatusErrorEffect(w1, c, StatusRegistrationFailed, Failed(failure.value), f)
    else
      (w1.(registry := w1.registry[credentials.id := PostResult(body, f)]), None)
  }

  ghost function UpdateEffect(w: Cluster, c: OAuth2Client, credentials: Oauth2ClientCredentials, f: Faults): (Cluster, Option<Error>) {
    var body := CredentialsOverlay(ToOAuth2ClientJSON(c), credentials);
    var w1 := w.(calls := w.calls + [PutCall(body)]);
    if f.hydraPut.Some? then
      StatusErrorEffect(w1, c, StatusUpdateFailed, Failed(f.hydraPut.value), f)
    else
      (w1.(registry := w1.registry[credentials.id := body]), None)
  }

  /** The secret with `owner=<name>` set; other labels are kept and a nil map is created. */
  function Relabelled(s: Secret, owner: string): Secret {
    s.(labels := Some(s.labels.GetOr(map[])[OwnerLabel := owner]))
  }

  ghost function SecretUpdateEffect(w: Cluster, key: NamespacedName, s: Secret, f: Faults): (Cluster, Option<Error>) {
    if f.updateSecret.Some? then (w, Some(Failed(f.updateSecret.value)))
    else (w.(secrets := w.secrets[key := s]), None)
  }

  // ---------------------------------------------------------------------
  // unregisterOAuth2Clients

  /** The secret carries the label `owner=<name>`. */
  predicate OwnedBy(s: Secret, name: string) {
    s.labels.Some? && OwnerLabel in s.labels.value && s.labels.value[OwnerLabel] == name
  }

  /** The secrets a List in `namespace` with label `owner=<name>` returns. */
  function MatchingSecrets(secrets: map<NamespacedName, Secret>, namespace: string, name: string): set<Secret> {
    set k | k in secrets && k.namespace == namespace && OwnedBy(secrets[k], name) :: secrets[k]
  }

  /** `string(s.Data["client_id"])`: a missing key reads as the empty string. */
  function SecretClientID(s: Secret): Bytes {
    if ClientIDKey in s.data then s.data[ClientIDKey] else []
  }

  function IDsOf(items: seq<Secret>): set<Bytes> {
    set s | s in items :: SecretClientID(s)
  }

  /** The distinct client ids in the secrets owned by the resource `key`. */
  function OwnedIDs(secrets: map<NamespacedName, Secret>, key: NamespacedName): set<Bytes> {
    set s | s in MatchingSecrets(secrets, key.namespace, key.name) :: SecretClientID(s)
  }

  ghost function DeleteCalls(order: seq<Bytes>): seq<RegistryCall> {
    seq(|order|, i requires 0 <= i < |order| => DeleteCall(order[i]))
  }

  /**
   * `order` is the sequence of ids the deletion loop tried: each id of `ids`
   * at most once, all but the last succeeded, and the loop tried every id
   * unless the last one failed, whose error is then the result.
   */
  ghost predicate DeletionRun(ids: set<Bytes>, order: seq<Bytes>, f: Faults, err: Option<Error>) {
    && (forall i, j :: 0 <= i < j < |order| ==> order[i] != order[j])
    && (forall i :: 0 <= i < |order| ==> order[i] in ids)
    && (forall i :: 0 <= i < |order| - 1 ==> order[i] !in f.hydraDelete)
    && match err
       case None =>
         && (forall id :: id in ids ==> id in order)
         && (|order| > 0 ==> order[|order| - 1] !in f.hydraDelete)
       case Some(e) =>
         && |order| > 0
         && order[|order| - 1] in f.hydraDelete
         && e == Failed(f.hydraDelete[order[|order| - 1]])
  }

  /** The ids of `order` whose Delete succeeded. */
  function Deleted(order: seq<Bytes>, f: Faults): set<Bytes> {
    set id | id in order && id !in f.hydraDelete
  }

  /** The ids collected from a complete listing are the owned ids. */
  lemma ListedIDs(items: seq<Secret>, secrets: map<NamespacedName, Secret>, key: NamespacedName)
    requires forall s :: s in items <==> s in MatchingSecrets(secrets, key.namespace, key.name)
    ensures IDsOf(items) == OwnedIDs(secrets, key)
  {
  }

  /** Trying one more id extends the deleted set by it exactly when its Delete succeeds. */
  lemma DeletedStep(order: seq<Bytes>, id: Bytes, f: Faults)
    ensures Deleted(order + [id], f) == Deleted(order, f) + (if id in f.hydraDelete then {} else {id})
    ensures DeleteCalls(order + [id]) == DeleteCalls(order) + [DeleteCall(id)]
  {
    assert forall x :: x in order + [id] <==> x in order || x == id;
  }

  /**
   * The possible outcomes of unregistering `key`: a failed List changes
   * nothing; otherwise the ids of the owned secrets are deleted in some
   * order until the first failure.
   */
  ghost predicate Unregistered(w: Cluster, key: NamespacedName, f: Faults, w': Cluster, err: Option<Error>) {
    if f.listSecrets.Some? then
      w' == w && err == Some(Failed(f.listSecrets.value))
    else
      exists order ::
        && DeletionRun(OwnedIDs(w.secrets, key), order, f, err)
        && w' == w.(registry := w.registry - Deleted(order, f), calls := w.calls + DeleteCalls(order))
  }

  /**
   * The deletion loop so far: `order` lists, without repetition and all
   * successfully deleted, exactly the ids of `ids` no longer `pending`.
   */
  ghost predicate DeletionProgress(ids: set<Bytes>, pending: set<Bytes>, order: seq<Bytes>, f: Faults) {
    && pending <= ids
    && (forall i, j :: 0 <= i < j < |order| ==> order[i] != order[j])
    && (forall id :: id in order <==> id in ids && id !in pending)
    && (forall i :: 0 <= i < |order| ==> order[i] !in f.hydraDelete)
  }

  /** A successful Delete of a pending id keeps the loop's progress. */
  lemma DeletionProgressStep(ids: set<Bytes>, pending: set<Bytes>, order: seq<Bytes>, id: Bytes, f: Faults)
    requires DeletionProgress(ids, pending, order, f)
    requires id in pending && id !in f.hydraDelete
    ensures DeletionProgress(ids, pending - {id}, order + [id], f)
  {
  }

  /** A failed Delete of a pending id ends the loop with that error. */
  lemma DeletionFails(ids: set<Bytes>, pending: set<Bytes>, order: seq<Bytes>, id: Bytes, f: Faults)
    requires DeletionProgress(ids, pending, order, f)
    requires id in pending && id in f.hydraDelete
    ensures DeletionRun(ids, order + [id], f, Some(Failed(f.hydraDelete[id])))
  {
  }

  /** With nothing pending, the loop has tried every id. */
  lemma DeletionCompletes(ids: set<Bytes>, order: seq<Bytes>, f: Faults)
    requires DeletionProgress(ids, {}, order, f)
    ensures DeletionRun(ids, order, f, None)
  {
  }

  /** A completed run of the deletion loop is one of the outcomes of unregistration. */
  lemma UnregisteredByRun(w: Cluster, key: NamespacedName, f: Faults, order: seq<Bytes>, w': Cluster, err: Option<Error>)
    requires f.listSecrets.None?
    requires DeletionRun(OwnedIDs(w.secrets, key), order, f, err)
    requires w' == w.(registry := w.registry - Deleted(order, f), calls := w.calls + DeleteCalls(order))
    ensures Unregistered(w, key, f, w', err)
  {
  }

  // ---------------------------------------------------------------------
  // Reconcile

  /** The branch Reconcile takes, decided from the stores and the read failures. */
  datatype Action =
    | LoadFailed(err: Error)
    | Unregister(key: NamespacedName)
    | UpToDate
    | SecretLoadFailed(err: Error)
    | Register(c: OAuth2Client)
    | SecretInvalid(err: Error)
    | LookupFailed(credentials: Oauth2ClientCredentials, err: Error)
    | Import(c: OAuth2Client, secretKey: NamespacedName, secret: Secret, credentials: Oauth2ClientCredentials)
    | Update(c: OAuth2Client, credentials: Oauth2ClientCredentials)

  function Decide(w: Cluster, req: NamespacedName, f: Faults): (a: Action)
    ensures a.Unregister? <==> f.getResource.None? && req !in w.resources
    ensures a.Unregister? ==> a.key == req
    ensures a.UpToDate? <==>
      f.getResource.None? && req in w.resources && w.resources[req].generation == w.resources[req].status.observedGeneration
    ensures a.Register? || a.Import? || a.Update? ==>
      && f.getResource.None? && f.getSecret.None? && req in w.resources && a.c == w.resources[req]
      && a.c.generation != a.c.status.observedGeneration
    ensures a.Register? ==> NamespacedName(req.namespace, a.c.spec.secretName) !in w.secrets
    ensures a.Import? ==>
      && a.secretKey == NamespacedName(req.namespace, a.c.spec.secretName)
      && a.secretKey in w.secrets && a.secret == w.secrets[a.secretKey]
      && ParseSecret(a.secret) == Success(a.credentials)
      && f.hydraGet.None? && a.credentials.id !in w.registry
    ensures a.Update? ==>
      && var key := NamespacedName(req.namespace, a.c.spec.secretName);
      && key in w.secrets && ParseSecret(w.secrets[key]) == Success(a.credentials)
      && f.hydraGet.None? && a.credentials.id in w.registry
  {
    if f.getResource.Some? then LoadFailed(Failed(f.getResource.value))
    else if req !in w.resources then Unregister(req)
    else
      var c := w.resources[req];
      if c.generation == c.status.observedGeneration then UpToDate
      else
        var secretKey := NamespacedName(req.namespace, c.spec.secretName);
        if f.getSecret.Some? then SecretLoadFailed(Failed(f.getSecret.value))
        else if secretKey !in w.secrets then Register(c)
        else
          match ParseSecret(w.secrets[secretKey])
          case Failure(e) => SecretInvalid(e)
          case Success(credentials) =>
            if f.hydraGet.Some? then LookupFailed(credentials, Failed(f.hydraGet.value))
            else if credentials.id !in w.registry then Import(c, secretKey, w.secrets[secretKey], credentials)
            else Update(c, credentials)
  }

  /** The new stores and the returned error of every branch but unregistration. */
  ghost function Outcome(w: Cluster, a: Action, f: Faults): (Cluster, Option<Error>)
    requires !a.Unregister?
  {
    match a
    case LoadFailed(e) => (w, Some(e))
    case UpToDate => (w, None)
    case SecretLoadFailed(e) => (w, Some(e))
    case Register(c) => RegisterEffect(w, c, f)
    case SecretInvalid(e) => (w, Some(e))
    case LookupFailed(credentials, e) => (w.(calls := w.calls + [GetCall(credentials.id)]), Some(e))
    case Import(c, secretKey, secret, credentials) =>
      var (w2, err) := ImportEffect(w.(calls := w.calls + [GetCall(credentials.id)]), c, credentials, f);
      if err.Some? then (w2, err) else SecretUpdateEffect(w2, secretKey, Relabelled(secret, c.name), f)
    case Update(c, credentials) =>
      UpdateEffect(w.(calls := w.calls + [GetCall(credentials.id)]), c, credentials, f)
  }

  /** The possible results of one Reconcile pass for `req`. */
  ghost predicate ReconcileOutcome(w: Cluster, req: NamespacedName, f: Faults, w': Cluster, err: Option<Error>) {
    match Decide(w, req, f)
    case Unregister(key) => Unregistered(w, key, f, w', err)
    case _ => (w', err) == Outcome(w, Decide(w, req, f), f)
  }
}
