/**
 * What one reconciliation pass does, branch by branch, stated over the
 * outcomes `ReconcileOutcome` allows; and what unregistration does.
 */
module ReconcileProperties {
  import opened Wrappers
  import opened Hydra
  import opened V1alpha1
  import opened ReconcileModel

  /**
   * The status write of a failed step: the resource's status becomes its
   * generation, `code` and `msg`, and the pass returns nil; if the write
   * itself fails, nothing changes and its error is returned.
   */
  ghost predicate FailureRecorded(w: Cluster, w': Cluster, req: NamespacedName, code: StatusCode, msg: string, f: Faults, err: Option<Error>)
    requires req in w.resources
  {
    var c := w.resources[req];
    if f.updateStatus.Some? then
      w'.resources == w.resources && err == Some(Failed(f.updateStatus.value))
    else
      && err.None?
      && w'.resources == w.resources[req := c.(status := OAuth2ClientStatus(c.generation, ReconciliationError(code, msg)))]
  }

  /** StatusErrorEffect stamps the stored resource, or returns the write's error and changes nothing. */
  lemma StatusErrorStamps(w: Cluster, req: NamespacedName, code: StatusCode, e: Error, f: Faults)
    requires WellKeyed(w) && req in w.resources
    ensures var (w', err) := StatusErrorEffect(w, w.resources[req], code, e, f);
      && FailureRecorded(w, w', req, code, e.message, f, err)
      && w'.secrets == w.secrets && w'.registry == w.registry && w'.calls == w.calls
  {
    assert ResourceKey(w.resources[req]) == req;
  }

  /** A failure loading the resource, other than its absence, is returned and nothing changes. */
  lemma LoadErrorChangesNothing(w: Cluster, req: NamespacedName, f: Faults, w': Cluster, err: Option<Error>)
    requires ReconcileOutcome(w, req, f, w', err)
    requires f.getResource.Some?
    ensures w' == w && err == Some(Failed(f.getResource.value))
  {
  }

  /** An absent resource is unregistered; see UnregistrationEffects for what that does. */
  lemma AbsentResourceUnregisters(w: Cluster, req: NamespacedName, f: Faults, w': Cluster, err: Option<Error>)
    requires ReconcileOutcome(w, req, f, w', err)
    requires f.getResource.None? && req !in w.resources
    ensures Unregistered(w, req, f, w', err)
  {
  }

  /** The registry after a deletion run: only tried ids that succeeded are gone. */
  lemma DeletionRunRegistry(registry: map<Bytes, OAuth2ClientJSON>, ids: set<Bytes>, order: seq<Bytes>, f: Faults, err: Option<Error>)
    requires DeletionRun(ids, order, f, err)
    ensures forall id :: id in registry - Deleted(order, f) ==> id in registry && (registry - Deleted(order, f))[id] == registry[id]
    ensures forall id :: id in registry && id !in ids ==> id in registry - Deleted(order, f)
    ensures err.None? ==> registry - Deleted(order, f) == registry - ids
  {
    if err.None? {
      assert Deleted(order, f) == ids by {
        forall id | id in ids ensures id in Deleted(order, f) {
          var k :| 0 <= k < |order| && order[k] == id;
          assert k < |order| - 1 || k == |order| - 1;
        }
      }
    }
  }

  /** The calls of a deletion run: one Delete per tried id, none twice, stopping at the first failure. */
  lemma DeletionRunCalls(ids: set<Bytes>, order: seq<Bytes>, f: Faults, err: Option<Error>)
    requires DeletionRun(ids, order, f, err)
    ensures var added := DeleteCalls(order);
      && (forall i :: 0 <= i < |added| ==> added[i].DeleteCall? && added[i].id in ids)
      && (forall i, j :: 0 <= i < j < |added| ==> added[i] != added[j])
      && (err.None? ==> forall id :: id in ids ==> DeleteCall(id) in added)
      && (err.Some? ==>
            && 0 < |added|
            && added[|added| - 1].id in f.hydraDelete
            && err == Some(Failed(f.hydraDelete[added[|added| - 1].id]))
            && forall i :: 0 <= i < |added| - 1 ==> added[i].id !in f.hydraDelete)
  {
    var added := DeleteCalls(order);
    if err.None? {
      forall id | id in ids ensures DeleteCall(id) in added {
        var k :| 0 <= k < |order| && order[k] == id;
        assert added[k] == DeleteCall(id);
      }
    }
  }

  /**
   * Unregistration deletes each distinct client id of the secrets owned by
   * `key` at most once, stops at and returns the first delete error, and
   * touches no other registry entry, no secret and no resource; when no
   * delete fails, every owned id is deleted.
   */
  ghost predicate UnregistrationSound(w: Cluster, key: NamespacedName, f: Faults, w': Cluster, err: Option<Error>) {
    var ids := OwnedIDs(w.secrets, key);
    && w'.resources == w.resources && w'.secrets == w.secrets
    && (f.listSecrets.Some? ==> w' == w && err == Some(Failed(f.listSecrets.value)))
    && (forall id :: id in w'.registry ==> id in w.registry && w'.registry[id] == w.registry[id])
    && (forall id :: id in w.registry && id !in ids ==> id in w'.registry)
    && (err.None? ==> w'.registry == w.registry - ids)
    && |w.calls| <= |w'.calls| && w'.calls[..|w.calls|] == w.calls
    && var added := w'.calls[|w.calls|..];
    && (forall i :: 0 <= i < |added| ==> added[i].DeleteCall? && added[i].id in ids)
    && (forall i, j :: 0 <= i < j < |added| ==> added[i] != added[j])
    && (err.None? ==> forall id :: id in ids ==> DeleteCall(id) in added)
    && (err.Some? && f.listSecrets.None? ==>
          && 0 < |added|
          && added[|added| - 1].id in f.hydraDelete
          && err == Some(Failed(f.hydraDelete[added[|added| - 1].id]))
          && forall i :: 0 <= i < |added| - 1 ==> added[i].id !in f.hydraDelete)
  }

  lemma DeletionRunSound(w: Cluster, key: NamespacedName, f: Faults, order: seq<Bytes>, w': Cluster, err: Option<Error>)
    requires f.listSecrets.None?
    requires DeletionRun(OwnedIDs(w.secrets, key), order, f, err)
    requires w' == w.(registry := w.registry - Deleted(order, f), calls := w.calls + DeleteCalls(order))
    ensures UnregistrationSound(w, key, f, w', err)
  {
    var ids := OwnedIDs(w.secrets, key);
    DeletionRunRegistry(w.registry, ids, order, f, err);
    DeletionRunCalls(ids, order, f, err);
    assert w'.calls[..|w.calls|] == w.calls;
    assert w'.calls[|w.calls|..] == DeleteCalls(order);
  }

  lemma UnregistrationEffects(w: Cluster, key: NamespacedName, f: Faults, w': Cluster, err: Option<Error>)
    requires Unregistered(w, key, f, w', err)
    ensures UnregistrationSound(w, key, f, w', err)
  {
    if f.listSecrets.None? {
      var order :| DeletionRun(OwnedIDs(w.secrets, key), order, f, err)
        && w' == w.(registry := w.registry - Deleted(order, f), calls := w.calls + DeleteCalls(order));
      DeletionRunSound(w, key, f, order, w', err);
    }
  }

  /** A resource whose generation was already observed is left alone: no call, no write. */
  lemma UpToDateChangesNothing(w: Cluster, req: NamespacedName, f: Faults, w': Cluster, err: Option<Error>)
    requires ReconcileOutcome(w, req, f, w', err)
    requires f.getResource.None? && req in w.resources
    requires w.resources[req].generation == w.resources[req].status.observedGeneration
    ensures w' == w && err.None?
  {
  }

  /** Where the pass looks for the resource's secret. */
  function SecretKeyFor(w: Cluster, req: NamespacedName): NamespacedName
    requires req in w.resources
  {
    NamespacedName(req.namespace, w.resources[req].spec.secretName)
  }

  /** The preconditions shared by the branches that go past the generation check. */
  ghost predicate Pending(w: Cluster, req: NamespacedName, f: Faults) {
    && WellKeyed(w)
    && f.getResource.None?
    && req in w.resources
    && w.resources[req].generation != w.resources[req].status.observedGeneration
  }

  /**
   * With no secret yet, the pass posts the resource's record once, without
   * credentials, and on success creates the secret in the resource's
   * namespace, labelled with the owner and holding the issued credentials.
   * No existing registry entry changes: a Post of an id already registered
   * fails with a conflict. A failed Post or secret creation is recorded in
   * the status.
   */
  lemma MissingSecretRegisters(w: Cluster, req: NamespacedName, f: Faults, w': Cluster, err: Option<Error>)
    requires ReconcileOutcome(w, req, f, w', err)
    requires Pending(w, req, f)
    requires f.getSecret.None? && SecretKeyFor(w, req) !in w.secrets
    ensures var c := w.resources[req];
      && w'.calls == w.calls + [PostCall(ToOAuth2ClientJSON(c))]
      && ToOAuth2ClientJSON(c).clientID.None?
    ensures forall id :: id in w.registry ==> id in w'.registry && w'.registry[id] == w.registry[id]
    ensures var c := w.resources[req];
      f.hydraPost.None? && f.issuedID !in w.registry ==>
        && w'.registry == w.registry[f.issuedID := PostResult(ToOAuth2ClientJSON(c), f)]
        && w'.registry[f.issuedID].owner == c.name + "/" + c.namespace
    ensures var c := w.resources[req];
      f.hydraPost.None? && f.issuedID !in w.registry && f.createSecret.None? ==>
        && err.None?
        && w'.resources == w.resources
        && w'.secrets == w.secrets[NamespacedName(c.namespace, c.spec.secretName) :=
             Secret(Some(map[OwnerLabel := c.name]), map[ClientIDKey := f.issuedID, ClientSecretKey := f.issuedSecret])]
    ensures f.hydraPost.None? && f.issuedID !in w.registry && f.createSecret.Some? ==>
      w'.secrets == w.secrets && FailureRecorded(w, w', req, StatusCreateSecretFailed, f.createSecret.value, f, err)
    ensures f.hydraPost.Some? ==>
      && w'.secrets == w.secrets && w'.registry == w.registry
      && FailureRecorded(w, w', req, StatusRegistrationFailed, f.hydraPost.value, f, err)
    ensures f.hydraPost.None? && f.issuedID in w.registry ==>
      && w'.secrets == w.secrets && w'.registry == w.registry
      && FailureRecorded(w, w', req, StatusRegistrationFailed, PostConflict, f, err)
  {
    var c := w.resources[req];
    assert ResourceKey(c) == req;
  }

  /** A secret without both keys makes the pass return the parse error; nothing is written. */
  lemma InvalidSecretIsReturned(w: Cluster, req: NamespacedName, f: Faults, w': Cluster, err: Option<Error>)
    requires ReconcileOutcome(w, req, f, w', err)
    requires Pending(w, req, f)
    requires f.getSecret.None? && SecretKeyFor(w, req) in w.secrets
    requires ParseSecret(w.secrets[SecretKeyFor(w, req)]).Failure?
    ensures w' == w
    ensures err == Some(ParseSecret(w.secrets[SecretKeyFor(w, req)]).error)
  {
  }

  /**
   * With a valid secret whose client id the registry does not know, the
   * pass looks the id up, then posts the record carrying the secret's
   * credentials (never a Put) and sets the secret's owner label. A failed
   * Post is recorded in the status; unless that status write fails too, the
   * pass still goes on to label the secret and returns the label write's
   * result.
   */
  lemma UnknownClientIsImported(w: Cluster, req: NamespacedName, f: Faults, w': Cluster, err: Option<Error>)
    requires ReconcileOutcome(w, req, f, w', err)
    requires Pending(w, req, f)
    requires f.getSecret.None? && SecretKeyFor(w, req) in w.secrets
    requires ParseSecret(w.secrets[SecretKeyFor(w, req)]).Success?
    requires f.hydraGet.None?
    requires ParseSecret(w.secrets[SecretKeyFor(w, req)]).value.id !in w.registry
    ensures var c, s := w.resources[req], w.secrets[SecretKeyFor(w, req)];
      var credentials := ParseSecret(s).value;
      var body := CredentialsOverlay(ToOAuth2ClientJSON(c), credentials);
      && w'.calls == w.calls + [GetCall(credentials.id), PostCall(body)]
      && body.clientID == Some(s.data[ClientIDKey])
      && body.secret == Some(s.data[ClientSecretKey])
      && (f.hydraPost.None? ==>
            && w'.registry == w.registry[credentials.id := PostResult(body, f)]
            && w'.resources == w.resources
            && (f.updateSecret.None? ==> err.None? && w'.secrets == w.secrets[SecretKeyFor(w, req) := Relabelled(s, c.name)])
            && (f.updateSecret.Some? ==> err == Some(Failed(f.updateSecret.value)) && w'.secrets == w.secrets))
      && (f.hydraPost.Some? ==>
            && w'.registry == w.registry
            && (f.updateStatus.Some? ==>
                  && err == Some(Failed(f.updateStatus.value))
                  && w'.resources == w.resources && w'.secrets == w.secrets)
            && (f.updateStatus.None? ==>
                  && w'.resources == w.resources[req := c.(status := OAuth2ClientStatus(c.generation,
                                                   ReconciliationError(StatusRegistrationFailed, f.hydraPost.value)))]
                  && (f.updateSecret.None? ==> err.None? && w'.secrets == w.secrets[SecretKeyFor(w, req) := Relabelled(s, c.name)])
                  && (f.updateSecret.Some? ==> err == Some(Failed(f.updateSecret.value)) && w'.secrets == w.secrets)))
  {
    var c := w.resources[req];
    assert ResourceKey(c) == req;
  }

  /**
   * A failed import Post whose status write succeeds is not returned as an
   * error, so the pass goes on to label the secret as owned even though no
   * client was registered.
   */
  lemma FailedImportStillLabelsSecret(w: Cluster, req: NamespacedName, f: Faults, w': Cluster, err: Option<Error>)
    requires ReconcileOutcome(w, req, f, w', err)
    requires Pending(w, req, f)
    requires f.getSecret.None? && SecretKeyFor(w, req) in w.secrets
    requires ParseSecret(w.secrets[SecretKeyFor(w, req)]).Success?
    requires f.hydraGet.None?
    requires ParseSecret(w.secrets[SecretKeyFor(w, req)]).value.id !in w.registry
    requires f.hydraPost.Some? && f.updateStatus.None? && f.updateSecret.None?
    ensures err.None?
    ensures w'.registry == w.registry
    ensures SecretKeyFor(w, req) in w'.secrets && OwnedBy(w'.secrets[SecretKeyFor(w, req)], req.name)
  {
    var c := w.resources[req];
    assert ResourceKey(c) == req;
  }

  /** Setting the owner label: the label is set, other labels are kept and no other label appears. */
  lemma RelabelledKeepsOtherLabels(s: Secret, owner: string)
    ensures Relabelled(s, owner).data == s.data
    ensures OwnedBy(Relabelled(s, owner), owner)
    ensures s.labels.None? ==> Relabelled(s, owner).labels == Some(map[OwnerLabel := owner])
    ensures s.labels.Some? ==>
      && Relabelled(s, owner).labels.value.Keys == s.labels.value.Keys + {OwnerLabel}
      && forall l :: l in s.labels.value && l != OwnerLabel ==> Relabelled(s, owner).labels.value[l] == s.labels.value[l]
  {
  }

  /**
   * With a valid secret whose client id is registered, the pass makes
   * exactly one Get and one Put of the record with the secret's
   * credentials, no Post, and writes no secret.
   */
  lemma KnownClientIsUpdated(w: Cluster, req: NamespacedName, f: Faults, w': Cluster, err: Option<Error>)
    requires ReconcileOutcome(w, req, f, w', err)
    requires Pending(w, req, f)
    requires f.getSecret.None? && SecretKeyFor(w, req) in w.secrets
    requires ParseSecret(w.secrets[SecretKeyFor(w, req)]).Success?
    requires f.hydraGet.None?
    requires ParseSecret(w.secrets[SecretKeyFor(w, req)]).value.id in w.registry
    ensures var c, s := w.resources[req], w.secrets[SecretKeyFor(w, req)];
      var credentials := ParseSecret(s).value;
      var body := CredentialsOverlay(ToOAuth2ClientJSON(c), credentials);
      && w'.calls == w.calls + [GetCall(credentials.id), PutCall(body)]
      && w'.secrets == w.secrets
      && (f.hydraPut.None? ==> err.None? && w'.resources == w.resources && w'.registry == w.registry[credentials.id := body])
      && (f.hydraPut.Some? ==>
            w'.registry == w.registry && FailureRecorded(w, w', req, StatusUpdateFailed, f.hydraPut.value, f, err))
  {
    var c := w.resources[req];
    assert ResourceKey(c) == req;
  }

  /**
   * `w'` differs from `w` in the resources at most by the status of `req`,
   * stamped with its generation and a failure code.
   */
  ghost predicate AtMostStatusStamped(w: Cluster, w': Cluster, req: NamespacedName) {
    && w'.resources.Keys == w.resources.Keys
    && (forall k :: k in w.resources && k != req ==> w'.resources[k] == w.resources[k])
    && (w'.resources != w.resources ==>
          && req in w.resources
          && w'.resources[req].(status := w.resources[req].status) == w.resources[req]
          && w'.resources[req].status.observedGeneration == w.resources[req].generation
          && w'.resources[req].status.reconciliationError.code in {StatusRegistrationFailed, StatusCreateSecretFailed, StatusUpdateFailed})
  }

  lemma FailureRecordedStampsAtMost(w: Cluster, w': Cluster, req: NamespacedName, code: StatusCode, msg: string, f: Faults, err: Option<Error>)
    requires req in w.resources
    requires code in {StatusRegistrationFailed, StatusCreateSecretFailed, StatusUpdateFailed}
    requires FailureRecorded(w, w', req, code, msg, f, err)
    ensures AtMostStatusStamped(w, w', req)
  {
  }

  /** The Post and secret-creation branch stamps at most the status, and only on a failure. */
  lemma RegisterStampsAtMost(w: Cluster, req: NamespacedName, f: Faults, w': Cluster, err: Option<Error>)
    requires ReconcileOutcome(w, req, f, w', err)
    requires Pending(w, req, f)
    requires f.getSecret.None? && SecretKeyFor(w, req) !in w.secrets
    ensures AtMostStatusStamped(w, w', req)
    ensures f.hydraPost.None? && f.issuedID !in w.registry && f.createSecret.None? ==> w'.resources == w.resources
  {
    MissingSecretRegisters(w, req, f, w', err);
    if f.hydraPost.Some? {
      FailureRecordedStampsAtMost(w, w', req, StatusRegistrationFailed, f.hydraPost.value, f, err);
    } else if f.issuedID in w.registry {
      FailureRecordedStampsAtMost(w, w', req, StatusRegistrationFailed, PostConflict, f, err);
    } else if f.createSecret.Some? {
      FailureRecordedStampsAtMost(w, w', req, StatusCreateSecretFailed, f.createSecret.value, f, err);
    }
  }

  /** The import and update branches stamp at most the status, and only on a failure. */
  lemma SyncStampsAtMost(w: Cluster, req: NamespacedName, f: Faults, w': Cluster, err: Option<Error>)
    requires ReconcileOutcome(w, req, f, w', err)
    requires Pending(w, req, f)
    requires f.getSecret.None? && SecretKeyFor(w, req) in w.secrets
    requires ParseSecret(w.secrets[SecretKeyFor(w, req)]).Success?
    requires f.hydraGet.None?
    ensures AtMostStatusStamped(w, w', req)
    ensures f.hydraPost.None? && f.hydraPut.None? ==> w'.resources == w.resources
  {
    if ParseSecret(w.secrets[SecretKeyFor(w, req)]).value.id !in w.registry {
      UnknownClientIsImported(w, req, f, w', err);
      if f.hydraPost.Some? {
        FailureRecordedStampsAtMost(w, w', req, StatusRegistrationFailed, f.hydraPost.value, f,
                                    if f.updateStatus.Some? then err else None);
      }
    } else {
      KnownClientIsUpdated(w, req, f, w', err);
      if f.hydraPut.Some? {
        FailureRecordedStampsAtMost(w, w', req, StatusUpdateFailed, f.hydraPut.value, f, err);
      }
    }
  }

  /**
   * No Post, Put or secret creation of this pass fails. A Post without
   * credentials also fails when the id the registry issues is taken.
   */
  ghost predicate NoWriteFails(w: Cluster, f: Faults) {
    f.hydraPost.None? && f.issuedID !in w.registry && f.hydraPut.None? && f.createSecret.None?
  }

  /**
   * A pass changes no resource but `req`, and of `req` only the status;
   * the status is written only to record a failed Post, Put or secret
   * creation, so a pass in which none of these fails leaves every resource,
   * observed generation included, as it was.
   */
  lemma StatusWrittenOnlyOnFailure(w: Cluster, req: NamespacedName, f: Faults, w': Cluster, err: Option<Error>)
    requires ReconcileOutcome(w, req, f, w', err)
    requires WellKeyed(w)
    ensures AtMostStatusStamped(w, w', req)
    ensures NoWriteFails(w, f) ==> w'.resources == w.resources
  {
    match Decide(w, req, f)
    case Unregister(key) =>
      UnregistrationEffects(w, key, f, w', err);
    case Register(_) =>
      RegisterStampsAtMost(w, req, f, w', err);
    case Import(_, _, _, _) =>
      SyncStampsAtMost(w, req, f, w', err);
    case Update(_, _) =>
      SyncStampsAtMost(w, req, f, w', err);
    case _ =>
  }

  /**
   * Success does not stamp the status, so the pass after a successful
   * registration runs again: it finds the secret it created, looks the
   * issued id up and Puts the record it first Posted, now carrying the
   * issued credentials. A registry that stores records as sent, like the
   * one modelled here, is left unchanged by that Put, and so is everything
   * else.
   */
  lemma SecondPassRewritesSameEntry(w: Cluster, req: NamespacedName, f: Faults, w1: Cluster, err1: Option<Error>,
                                    g: Faults, w2: Cluster, err2: Option<Error>)
    requires ReconcileOutcome(w, req, f, w1, err1)
    requires ReconcileOutcome(w1, req, g, w2, err2)
    requires Pending(w, req, f)
    requires f.getSecret.None? && SecretKeyFor(w, req) !in w.secrets
    requires f.hydraPost.None? && f.issuedID !in w.registry && f.createSecret.None?
    requires g.getResource.None? && g.getSecret.None? && g.hydraGet.None? && g.hydraPut.None?
    ensures err1.None? && err2.None?
    ensures f.issuedID in w1.registry
    ensures w1.calls == w.calls + [PostCall(ToOAuth2ClientJSON(w.resources[req]))]
    ensures w2.calls == w1.calls + [GetCall(f.issuedID),
                                    PutCall(ToOAuth2ClientJSON(w.resources[req]).(clientID := Some(f.issuedID),
                                                                                  secret := Some(f.issuedSecret)))]
    ensures w1.registry[f.issuedID] == PostResult(ToOAuth2ClientJSON(w.resources[req]), f)
    ensures w2.registry == w1.registry && w2.secrets == w1.secrets && w2.resources == w1.resources
  {
    var c := w.resources[req];
    assert ResourceKey(c) == req;
    MissingSecretRegisters(w, req, f, w1, err1);
    var sk := SecretKeyFor(w, req);
    assert sk == NamespacedName(c.namespace, c.spec.secretName);
    assert w1.resources == w.resources;
    assert WellKeyed(w1);
    var s := w1.secrets[sk];
    assert ParseSecret(s) == Success(Oauth2ClientCredentials(f.issuedID, Some(f.issuedSecret)));
    KnownClientIsUpdated(w1, req, g, w2, err2);
    assert CredentialsOverlay(ToOAuth2ClientJSON(c), ParseSecret(s).value) == w1.registry[f.issuedID];
  }
}
