# hydra-maester OAuth2Client controller, modelled in Dafny

This project models the OAuth2Client controller of hydra-maester, a
Kubernetes operator. The controller keeps OAuth2 clients registered with an
ORY Hydra server in line with `OAuth2Client` custom resources. A resource's
credentials live in a Kubernetes `Secret`, whose `client_id` and
`client_secret` keys carry them and whose `owner` label names the resource.

One reconciliation pass for a resource name works as follows:

- it loads the resource;
- if the resource is gone, it deletes from Hydra the clients recorded in the
  secrets labelled as owned by that name;
- if the resource's generation has already been observed, it does nothing;
- otherwise it loads the secret named in the spec:
  - no secret: it Posts the client and creates the secret with the
    credentials Hydra issued;
  - the id in the secret is unknown to Hydra: it Posts the client with the
    secret's credentials, then labels the secret as owned;
  - the id is known: it Puts the client.

A failed Post, Put or secret creation is recorded in the resource's status,
which holds an error code, its description and the observed generation.

Modules, following the Go packages:

- `Wrappers`: `Option` and `Result`.
- `Hydra` (`hydra/types.go`): the `OAuth2ClientJSON` record and the
  `Oauth2ClientCredentials` pair. `WithCredentials` is a method of the class
  `OAuth2ClientJSONRef`, which updates the record's two credential fields in
  place. It is proved against the pure `CredentialsOverlay`.
- `V1alpha1` (`api/v1alpha1/oauth2client_types.go`): the status codes, the
  resource types, `ToOAuth2ClientJSON` and the three `*ToStringSlice`
  converters. The converters are methods that fill an array in a loop. Each
  is proved equal to a sequence comprehension and inverted by a round-trip
  lemma.
- `HydraConversion` (`hydra/types.go`): `FromOAuth2Client`. It is a module of
  its own because `hydra` and `v1alpha1` import each other, and Dafny modules
  cannot.
- `ReconcileModel`: the state the controller sees, as the value `Cluster`.
  `Cluster` holds the resources and secrets of the Kubernetes API, the Hydra
  registry and the log of registry calls. Every external failure comes from a
  `Faults` record. The log of registry calls is ghost: the code keeps no such
  log, and the model uses it to state what was sent to Hydra. The module also has the pure outcome of each step and
  `ReconcileOutcome`, the possible results of one pass.
- `Controller`: the class `OAuth2ClientReconciler`. Its fields are the
  stores. Its methods mirror the Go methods step by step, and each is proved
  to produce the outcome `ReconcileModel` gives.
- `ReconcileProperties`: lemmas that say what a pass does in each branch, what
  unregistration deletes, that the status is written only on failure, and what
  the second pass after a registration does.

Where the code and the intended design disagree, this model follows the code:

- Deleting a resource relies on no finalizer. Deletion is seen only as a
  missing resource, and the ids to delete come from labelled secrets.
- Nothing detects two resources that claim the same secret or client id.
- There is no per-resource Hydra endpoint. One registry serves every resource.
- The status code `INVALID_SECRET` is declared but never written. An invalid
  secret only makes the pass return the parse error; nothing records it in the
  resource (`InvalidSecretIsReturned`).
- A successful pass never writes the status, so the observed generation
  advances only when a failure is recorded. The pass after a successful
  registration therefore runs again: it looks the client up and Puts the
  record it Posted, now carrying the issued credentials
  (`SecondPassRewritesSameEntry`).
- `OAuth2ClientSpec` in `api/v1alpha1/oauth2client_types.go` has only grant
  types, response types, redirect URIs, scope and secret name. However,
  `hydra/types.go` reads further spec fields: client name, post-logout
  redirect URIs, CORS origins, audience, token endpoint auth method and
  metadata. The modelled spec carries all of them, so that `FromOAuth2Client`
  can be stated.

## Model

| member | source | states |
|---|---|---|
| Hydra.CredentialsOverlay | hydra/types.go:39-45 | the id is always set from the credentials; the secret is replaced only when a password is given; every other field is kept |
| Hydra.OAuth2ClientJSONRef.WithCredentials | hydra/types.go:39-45 | updates only the record's id and secret fields in place, returns the same object, and the new value is `CredentialsOverlay` of the old |
| Hydra.OAuth2ClientJSONRef.constructor | hydra/types.go:15-30 | the new object holds exactly the given record |
| V1alpha1.StatusCodesDistinct | api/v1alpha1/oauth2client_types.go:27-32 | the four status codes are pairwise distinct |
| V1alpha1.GrantToStringSlice | api/v1alpha1/oauth2client_types.go:138-144 | the output has the input's length, and element i is the string of grant type i |
| V1alpha1.ResponseToStringSlice | api/v1alpha1/oauth2client_types.go:130-136 | the output has the input's length, and element i is the string of response type i |
| V1alpha1.RedirectToStringSlice | api/v1alpha1/oauth2client_types.go:146-152 | the output has the input's length, and element i is the string of redirect URI i |
| V1alpha1.ConversionsRoundTrip | api/v1alpha1/oauth2client_types.go:130-152 | wrapping each converter's output again as named types gives back the input, so the conversions lose nothing |
| V1alpha1.OwnerStringInjective | api/v1alpha1/oauth2client_types.go:126 | for names without `/`, the owner string `name/namespace` determines the name and the namespace |
| V1alpha1.ToOAuth2ClientJSON | api/v1alpha1/oauth2client_types.go:120-128 | the record carries the converted grant types, response types and redirect URIs, the scope, and the owner `name/namespace`; it has no id and no secret, and every other field is empty |
| HydraConversion.FromOAuth2Client | hydra/types.go:48-67 | fails exactly when the metadata cannot be marshalled, with the fixed message prefixed to the cause; otherwise it carries all converted spec fields, the marshalled metadata and the owner, with no id or secret |
| HydraConversion.FromExtendsTo | hydra/types.go:48-67 | with the fields only it sets blanked, `FromOAuth2Client` gives exactly `ToOAuth2ClientJSON` |
| ReconcileModel.ParseSecret | controllers/oauth2client_controller.go:200-216 | succeeds exactly when both keys are present; a missing `client_id` is reported first, with its exact message, and then a missing `client_secret`; on success it returns the stored id and password |
| ReconcileModel.PostResult | controllers/oauth2client_controller.go:39-44 | a Post returns the posted record with an id and a secret, and keeps any the caller gave |
| ReconcileModel.PostFailure | controllers/oauth2client_controller.go:41 | a Post fails exactly when the injected failure is set or the id it would be stored under is already registered, so a Post never replaces an entry |
| ReconcileModel.StatusErrorEffect | controllers/oauth2client_controller.go:185-198 | defines the status write of a failed step: the stored resource's status becomes (generation, code, description) and nil is returned; a failed write is returned instead; a missing resource gives not found |
| ReconcileModel.RegisterEffect | controllers/oauth2client_controller.go:117-141 | defines registration: Post the record without credentials; on success add the entry and create the owned secret with the issued id and secret; each failure goes through `StatusErrorEffect` with its code |
| ReconcileModel.ImportEffect | controllers/oauth2client_controller.go:143-149 | defines the Post of the record overlaid with the secret's credentials; a failure goes through `StatusErrorEffect` with the registration-failed code |
| ReconcileModel.UpdateEffect | controllers/oauth2client_controller.go:151-156 | defines the Put of the record overlaid with the secret's credentials; a failure goes through `StatusErrorEffect` with the update-failed code |
| ReconcileModel.Relabelled | controllers/oauth2client_controller.go:98-101 | defines the secret with `owner=<name>` set in its label map, which is created when nil |
| ReconcileModel.SecretUpdateEffect | controllers/oauth2client_controller.go:102 | defines the secret write: store the secret, or return the failure and change nothing |
| ReconcileModel.DeletionRun | controllers/oauth2client_controller.go:176-182 | defines the runs of the deletion loop: distinct owned ids, all but the last deleted, every id tried when no Delete fails, otherwise the last one is the failure returned |
| ReconcileModel.Unregistered | controllers/oauth2client_controller.go:158-183 | defines the outcomes of unregistration: a List failure changes nothing and is returned; otherwise some deletion run over the owned ids removes the deleted ids and logs their Delete calls |
| ReconcileModel.Decide | controllers/oauth2client_controller.go:62-105 | the branch a pass takes: unregistration exactly when the resource is absent; no work exactly when its generation was observed; registration, import and update only for a resource with a pending generation; import only for a parsed secret whose id is unknown to the registry, update only for one whose id is known, both carrying the secret's credentials |
| ReconcileModel.Outcome | controllers/oauth2client_controller.go:62-105 | defines each branch's new state and error: read failures and invalid secrets are returned unchanged; a lookup failure is returned after the Get; import Posts and then relabels the secret unless the Post's status handling returned an error; update Puts |
| Controller.OAuth2ClientReconciler.constructor | controllers/oauth2client_controller.go:46-51 | the reconciler starts with the given stores and failures |
| Controller.OAuth2ClientReconciler.GetResource | controllers/oauth2client_controller.go:62-70 | returns the stored resource, a not-found error when it is absent, or the injected failure |
| Controller.OAuth2ClientReconciler.GetSecret | controllers/oauth2client_controller.go:74-80 | returns the stored secret, a not-found error when it is absent, or the injected failure |
| Controller.OAuth2ClientReconciler.ListSecrets | controllers/oauth2client_controller.go:159-169 | when the List succeeds, it returns exactly the secrets in the namespace that are labelled `owner=<name>` |
| Controller.OAuth2ClientReconciler.CreateSecret | controllers/oauth2client_controller.go:136 | stores the secret under its key, or returns the failure and changes nothing |
| Controller.OAuth2ClientReconciler.UpdateSecret | controllers/oauth2client_controller.go:102 | replaces the secret under its key, or returns the failure and changes nothing |
| Controller.OAuth2ClientReconciler.UpdateStatus | controllers/oauth2client_controller.go:192 | replaces the stored resource's status; fails with not found if the resource is gone; a failure changes nothing |
| Controller.OAuth2ClientReconciler.GetOAuth2Client | controllers/oauth2client_controller.go:40 | logs a Get call, and on success reports registered exactly when the id is in the registry |
| Controller.OAuth2ClientReconciler.PostOAuth2Client | controllers/oauth2client_controller.go:41 | logs a Post call; fails with the `PostFailure` text, the injected failure or a conflict on an id already registered, changing nothing; otherwise it stores and returns `PostResult` under an id that was not registered |
| Controller.OAuth2ClientReconciler.PutOAuth2Client | controllers/oauth2client_controller.go:42 | logs a Put call, and on success stores the record under its id |
| Controller.OAuth2ClientReconciler.DeleteOAuth2Client | controllers/oauth2client_controller.go:43 | logs a Delete call and removes the id, or returns that id's failure and changes nothing |
| Controller.OAuth2ClientReconciler.UpdateReconciliationStatusError | controllers/oauth2client_controller.go:185-198 | the new state and error are `StatusErrorEffect`: observed generation := generation, code and description set, and the status write's error returned |
| Controller.OAuth2ClientReconciler.RegisterOAuth2Client | controllers/oauth2client_controller.go:117-141 | the new state and error are `RegisterEffect`: Post the record without credentials, then create the owned secret holding the issued credentials; a failure of either is recorded in the status |
| Controller.OAuth2ClientReconciler.RegisterOAuth2ClientWithCredentials | controllers/oauth2client_controller.go:143-149 | the new state and error are `ImportEffect`: Post the record carrying the secret's credentials; a failure is recorded in the status |
| Controller.OAuth2ClientReconciler.UpdateRegisteredOAuth2Client | controllers/oauth2client_controller.go:151-156 | the new state and error are `UpdateEffect`: Put the record carrying the secret's credentials; a failure is recorded in the status |
| Controller.OAuth2ClientReconciler.CollectClientIDs | controllers/oauth2client_controller.go:171-174 | the set of `client_id` values of the listed secrets, with a missing key read as the empty id |
| Controller.OAuth2ClientReconciler.ListOwnedClientIDs | controllers/oauth2client_controller.go:159-174 | returns the List failure, or exactly the ids of the secrets owned by the name |
| Controller.OAuth2ClientReconciler.DeleteClientIDs | controllers/oauth2client_controller.go:176-182 | tries each id at most once, in some order, and stops at the first failure, returning it; the registry loses exactly the ids that were deleted, and the log gains one Delete per id tried |
| Controller.OAuth2ClientReconciler.UnregisterOAuth2Clients | controllers/oauth2client_controller.go:158-183 | the new state and error are among the outcomes `Unregistered` allows |
| Controller.OAuth2ClientReconciler.Reconcile | controllers/oauth2client_controller.go:57-109 | the new state and error are among the outcomes `ReconcileOutcome` allows for the branch the Go code takes |
| ReconcileProperties.StatusErrorStamps | controllers/oauth2client_controller.go:185-198 | the stored resource gets status (generation, code, description) and nil is returned; if the status write fails, its error is returned and nothing changes; secrets, registry and calls are untouched |
| ReconcileProperties.LoadErrorChangesNothing | controllers/oauth2client_controller.go:62-70 | a load failure other than not found is returned, and nothing changes |
| ReconcileProperties.AbsentResourceUnregisters | controllers/oauth2client_controller.go:63-68 | a resource that is gone leads to unregistration of its name |
| ReconcileProperties.DeletionRunRegistry | controllers/oauth2client_controller.go:176-182 | a deletion run removes no id outside the owned set and keeps every remaining entry; with no failure it removes every owned id |
| ReconcileProperties.DeletionRunCalls | controllers/oauth2client_controller.go:176-182 | a deletion run makes distinct Delete calls, each for an owned id; with no failure it covers every owned id; otherwise the last call is the first that failed, and its error is returned |
| ReconcileProperties.DeletionRunSound | controllers/oauth2client_controller.go:158-183 | every completed deletion run satisfies `UnregistrationSound` |
| ReconcileProperties.UnregistrationEffects | controllers/oauth2client_controller.go:158-183 | unregistration satisfies `UnregistrationSound`: a List failure changes nothing and is returned; otherwise only owned ids are deleted, each at most once, the first Delete error stops the run and is returned, and with no error all owned ids are gone; secrets and resources are untouched |
| ReconcileProperties.UpToDateChangesNothing | controllers/oauth2client_controller.go:72 | a resource whose generation is already observed causes no call and no write |
| ReconcileProperties.MissingSecretRegisters | controllers/oauth2client_controller.go:117-141 | no secret means exactly one Post of the record without credentials, and no existing registry entry changes. On success the owned secret, with the issued id and secret, is created in the resource's namespace, and nil is returned. A failed Post, including a conflict on an issued id that is already registered, or a failed secret creation is recorded in the status |
| ReconcileProperties.InvalidSecretIsReturned | controllers/oauth2client_controller.go:82-86 | a secret missing a key makes the pass return the parse error and write nothing |
| ReconcileProperties.UnknownClientIsImported | controllers/oauth2client_controller.go:88-103 | an id unknown to Hydra means one Get, then one Post of the record with the secret's id and password, and no Put. On success the secret is relabelled, or the update error is returned. A failed Post is recorded in the status. If that status write fails, its error is returned and no secret changes. Otherwise the secret is still relabelled, and the pass returns nil or the secret update's error |
| ReconcileProperties.FailedImportStillLabelsSecret | controllers/oauth2client_controller.go:94-103 | a failed import Post whose status write succeeds returns nil, and the secret is still labelled as owned although no client was registered |
| ReconcileProperties.RelabelledKeepsOtherLabels | controllers/oauth2client_controller.go:98-101 | sets `owner=<name>`, creates the label map when it is nil, keeps every other label and all data |
| ReconcileProperties.KnownClientIsUpdated | controllers/oauth2client_controller.go:88-105 | a registered id means one Get and one Put of the record with the secret's credentials, and no secret write. On success the registry entry is replaced; a failed Put is recorded in the status |
| ReconcileProperties.FailureRecordedStampsAtMost | controllers/oauth2client_controller.go:185-198 | recording a failure changes only the status of this resource, to its generation and a failure code |
| ReconcileProperties.RegisterStampsAtMost | controllers/oauth2client_controller.go:117-141 | the registration branch changes only this resource's status, and only when the Post or the secret creation fails |
| ReconcileProperties.SyncStampsAtMost | controllers/oauth2client_controller.go:94-105 | the import and update branches change only this resource's status, and only when the Post or Put fails |
| ReconcileProperties.StatusWrittenOnlyOnFailure | controllers/oauth2client_controller.go:57-109 | a pass changes no other resource and no part of this one but its status, stamped with its generation and a failure code; a pass in which no Post, Put or secret creation fails, counting a conflict on an already registered issued id, changes no resource |
| ReconcileProperties.SecondPassRewritesSameEntry | controllers/oauth2client_controller.go:72-105 | after a successful registration, a pass with no failures finds the created secret and makes one Get of the issued id and one Put of the first Post's record, now carrying the issued credentials; both passes return nil, and with a registry that stores records as sent, nothing changes |

## Left out

- The Kubernetes API machinery is not modelled: the context, the controller-runtime client, watches, `SetupWithManager` and `init`'s scheme registration. The stores are maps, and every API failure is an injected fault.
- Logging is left out, because it does not affect state.
- Hydra's HTTP client is not modelled. The registry is a map of ids to records that stores records as they are sent. Its issued ids and secrets are parameters (`Faults.issuedID`, `Faults.issuedSecret`). The model does not assume an issued id is fresh. Instead, a Post whose resulting id is already registered fails with a conflict, as Hydra rejects a client id that exists, so a Post never replaces an entry. The text of Hydra's conflict response is not modelled. A Post that returns no id or secret, which would make the Go code dereference nil, is not modelled.
- `json.Marshal` of the metadata is a parameter of `FromOAuth2Client`, so the JSON encoding is not modelled.
- The kubebuilder validation markers are not modelled, because they are enforced by the API server, not by this code. Examples: at most four grant types, the secret name pattern.
- Go `int64` generations are unbounded `int`, because the code only compares and copies them.
- Each operation fails at most once per pass, as one `Faults` entry; deletes fail per id. Retries and requeueing, which belong to controller-runtime, are left out.
- Concurrent modification of the stores during a pass is not modelled.
- `hydra/types.go` repeats the three `*ToStringSlice` converters of `api/v1alpha1/oauth2client_types.go` (lines 69-91). The model defines them once, in `V1alpha1`.
- ParseSecret: a key that is present with a nil value yields `Some` of the empty password, so the nil `Password` case of `WithCredentials` is never reached from a parsed secret. `CredentialsOverlay` still models that case.
- UnregisterOAuth2Clients: Go's unspecified map iteration order is modelled as an arbitrary order, so the contract is relational: some order exists that explains the outcome.
