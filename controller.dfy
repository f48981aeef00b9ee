/**
 * OAuth2ClientReconciler (controllers/oauth2client_controller.go): one
 * reconciliation pass as the sequence of store calls the controller makes,
 * each proved against the functions of ReconcileModel.
 */
module Controller {
  import opened Wrappers
  import opened Hydra
  import opened V1alpha1
  import opened ReconcileModel

  /**
   * The reconciler together with the two collaborators it talks to: the
   * Kubernetes API (resources and secrets) and the registry behind
   * HydraClientInterface (entries and the log of calls). `faults` says which
   * of their calls fail.
   */
  class OAuth2ClientReconciler {
    var resources: map<NamespacedName, OAuth2Client>
    var secrets: map<NamespacedName, Secret>
    var registry: map<Bytes, OAuth2ClientJSON>
    ghost var calls: seq<RegistryCall>
    const faults: Faults

    ghost function State(): Cluster
      reads this
    {
      Cluster(resources, secrets, registry, calls)
    }

    constructor (w: Cluster, faults: Faults)
      ensures State() == w && this.faults == faults
    {
      resources, secrets, registry := w.resources, w.secrets, w.registry;
      calls := w.calls;
      this.faults := faults;
    }

    // --- the Kubernetes API client -------------------------------------

    method GetResource(key: NamespacedName) returns (r: Result<OAuth2Client, Error>)
      ensures faults.getResource.Some? ==> r == Failure(Failed(faults.getResource.value))
      ensures faults.getResource.None? && key in resources ==> r == Success(resources[key])
      ensures faults.getResource.None? && key !in resources ==> r.Failure? && r.error.NotFound?
    {
      if faults.getResource.Some? {
        r := Failure(Failed(faults.getResource.value));
      } else if key in resources {
        r := Success(resources[key]);
      } else {
        r := Failure(NotFound("oauth2client not found"));
      }
    }

    method GetSecret(key: NamespacedName) returns (r: Result<Secret, Error>)
      ensures faults.getSecret.Some? ==> r == Failure(Failed(faults.getSecret.value))
      ensures faults.getSecret.None? && key in secrets ==> r == Success(secrets[key])
      ensures faults.getSecret.None? && key !in secrets ==> r.Failure? && r.error.NotFound?
    {
      if faults.getSecret.Some? {
        r := Failure(Failed(faults.getSecret.value));
      } else if key in secrets {
        r := Success(secrets[key]);
      } else {
        r := Failure(NotFound("secret not found"));
      }
    }

    /** List of the secrets in `namespace` labelled `owner=<name>`, in no particular order. */
    method ListSecrets(namespace: string, name: string) returns (items: seq<Secret>, err: Option<Error>)
      ensures err == if faults.listSecrets.Some? then Some(Failed(faults.listSecrets.value)) else None
      ensures err.None? ==> forall s :: s in items <==> s in MatchingSecrets(secrets, namespace, name)
    {
      items := [];
      if faults.listSecrets.Some? {
        return [], Some(Failed(faults.listSecrets.value));
      }
      var todo := secrets.Keys;
      while todo != {}
        invariant todo <= secrets.Keys
        invariant forall s :: s in items ==> s in MatchingSecrets(secrets, namespace, name)
        invariant forall k :: k in secrets && k !in todo && k.namespace == namespace && OwnedBy(secrets[k], name) ==> secrets[k] in items
        decreases todo
      {
        var k :| k in todo;
        if k.namespace == namespace && OwnedBy(secrets[k], name) {
          items := items + [secrets[k]];
        }
        todo := todo - {k};
      }
      err := None;
    }

    method CreateSecret(key: NamespacedName, s: Secret) returns (err: Option<Error>)
      modifies this`secrets
      ensures faults.createSecret.Some? ==> err == Some(Failed(faults.createSecret.value)) && secrets == old(secrets)
      ensures faults.createSecret.None? ==> err.None? && secrets == old(secrets)[key := s]
    {
      if faults.createSecret.Some? {
        return Some(Failed(faults.createSecret.value));
      }
      secrets := secrets[key := s];
      err := None;
    }

    method UpdateSecret(key: NamespacedName, s: Secret) returns (err: Option<Error>)
      modifies this`secrets
      ensures (State(), err) == SecretUpdateEffect(old(State()), key, s, faults)
    {
      if faults.updateSecret.Some? {
        return Some(Failed(faults.updateSecret.value));
      }
      secrets := secrets[key := s];
      err := None;
    }

    /** `r.Status().Update`: writes `c`'s status onto the stored resource. */
    method UpdateStatus(c: OAuth2Client) returns (err: Option<Error>)
      modifies this`resources
      ensures faults.updateStatus.Some? ==> err == Some(Failed(faults.updateStatus.value)) && resources == old(resources)
      ensures faults.updateStatus.None? && ResourceKey(c) !in old(resources) ==>
        err == Some(NotFound("oauth2client not found")) && resources == old(resources)
      ensures faults.updateStatus.None? && ResourceKey(c) in old(resources) ==>
        err.None? && resources == old(resources)[ResourceKey(c) := old(resources)[ResourceKey(c)].(status := c.status)]
    {
      var key := ResourceKey(c);
      if faults.updateStatus.Some? {
        return Some(Failed(faults.updateStatus.value));
      }
      if key !in resources {
        return Some(NotFound("oauth2client not found"));
      }
      resources := resources[key := resources[key].(status := c.status)];
      err := None;
    }

    // --- the registry (HydraClientInterface) ---------------------------

    method GetOAuth2Client(id: Bytes) returns (registered: bool, err: Option<Error>)
      modifies this`calls
      ensures calls == old(calls) + [GetCall(id)]
      ensures err == if faults.hydraGet.Some? then Some(Failed(faults.hydraGet.value)) else None
      ensures err.None? ==> (registered <==> id in registry)
    {
      calls := calls + [GetCall(id)];
      if faults.hydraGet.Some? {
        return false, Some(Failed(faults.hydraGet.value));
      }
      registered, err := id in registry, None;
    }

    method PostOAuth2Client(o: OAuth2ClientJSON) returns (r: Result<OAuth2ClientJSON, Error>)
      modifies this`registry, this`calls
      ensures calls == old(calls) + [PostCall(o)]
      ensures PostFailure(old(registry), o, faults).Some? ==>
        r == Failure(Failed(PostFailure(old(registry), o, faults).value)) && registry == old(registry)
      ensures PostFailure(old(registry), o, faults).None? ==>
        && r == Success(PostResult(o, faults))
        && r.value.clientID.value !in old(registry)
        && registry == old(registry)[r.value.clientID.value := r.value]
    {
      calls := calls + [PostCall(o)];
      var created := PostResult(o, faults);
      if faults.hydraPost.Some? {
        return Failure(Failed(faults.hydraPost.value));
      } else if created.clientID.value in registry {
        return Failure(Failed(PostConflict));
      }
      registry := registry[created.clientID.value := created];
      r := Success(created);
    }

    /** The client implementation addresses the entry by the record's id, so one must be set. */
    method PutOAuth2Client(o: OAuth2ClientJSON) returns (r: Result<OAuth2ClientJSON, Error>)
      requires o.clientID.Some?
      modifies this`registry, this`calls
      ensures calls == old(calls) + [PutCall(o)]
      ensures faults.hydraPut.Some? ==> r == Failure(Failed(faults.hydraPut.value)) && registry == old(registry)
      ensures faults.hydraPut.None? ==> r == Success(o) && registry == old(registry)[o.clientID.value := o]
    {
      calls := calls + [PutCall(o)];
      if faults.hydraPut.Some? {
        return Failure(Failed(faults.hydraPut.value));
      }
      registry := registry[o.clientID.value := o];
      r := Success(o);
    }

    method DeleteOAuth2Client(id: Bytes) returns (err: Option<Error>)
      modifies this`registry, this`calls
      ensures calls == old(calls) + [DeleteCall(id)]
      ensures id in faults.hydraDelete ==> err == Some(Failed(faults.hydraDelete[id])) && registry == old(registry)
      ensures id !in faults.hydraDelete ==> err.None? && registry == old(registry) - {id}
    {
      calls := calls + [DeleteCall(id)];
      if id in faults.hydraDelete {
        return Some(Failed(faults.hydraDelete[id]));
      }
      registry := registry - {id};
      err := None;
    }

    // --- the reconciler ------------------------------------------------

    /**
     * Stamps `c`'s status with the resource's generation, `code` and the
     * error text, and writes it; the result is the status write's error.
     */
    method UpdateReconciliationStatusError(c: OAuth2Client, code: StatusCode, e: Error) returns (err: Option<Error>)
      modifies this`resources
      ensures (State(), err) == StatusErrorEffect(old(State()), c, code, e, faults)
    {
      var stamped := c.(status := c.status.(observedGeneration := c.generation,
                                            reconciliationError := ReconciliationError(code, e.message)));
      assert stamped.status == StampedStatus(c, code, e) && ResourceKey(stamped) == ResourceKey(c);
      err := UpdateStatus(stamped);
    }

    method RegisterOAuth2Client(c: OAuth2Client) returns (err: Option<Error>)
      modifies this
      ensures (State(), err) == RegisterEffect(old(State()), c, faults)
    {
      var created := PostOAuth2Client(ToOAuth2ClientJSON(c));
      if created.Failure? {
        err := UpdateReconciliationStatusError(c, StatusRegistrationFailed, created.error);
        return;
      }
      var clientSecret := Secret(Some(map[OwnerLabel := c.name]),
                                 map[ClientIDKey := created.value.clientID.value,
                                     ClientSecretKey := created.value.secret.value]);
      var createErr := CreateSecret(NamespacedName(c.namespace, c.spec.secretName), clientSecret);
      if createErr.Some? {
        err := UpdateReconciliationStatusError(c, StatusCreateSecretFailed, createErr.value);
        return;
      }
      err := None;
    }

    method RegisterOAuth2ClientWithCredentials(c: OAuth2Client, credentials: Oauth2ClientCredentials) returns (err: Option<Error>)
      modifies this
      ensures (State(), err) == ImportEffect(old(State()), c, credentials, faults)
    {
      var record := new OAuth2ClientJSONRef(ToOAuth2ClientJSON(c));
      record := record.WithCredentials(credentials);
      var posted := PostOAuth2Client(record.Value());
      if posted.Failure? {
        err := UpdateReconciliationStatusError(c, StatusRegistrationFailed, posted.error);
        return;
      }
      err := None;
    }

    method UpdateRegisteredOAuth2Client(c: OAuth2Client, credentials: Oauth2ClientCredentials) returns (err: Option<Error>)
      modifies this
      ensures (State(), err) == UpdateEffect(old(State()), c, credentials, faults)
    {
      var record := new OAuth2ClientJSONRef(ToOAuth2ClientJSON(c));
      record := record.WithCredentials(credentials);
      var updated := PutOAuth2Client(record.Value());
      if updated.Failure? {
        err := UpdateReconciliationStatusError(c, StatusUpdateFailed, updated.error);
        return;
      }
      err := None;
    }

    /** The first loop of unregistration: the distinct client ids of the listed secrets. */
    static method CollectClientIDs(items: seq<Secret>) returns (ids: set<Bytes>)
      ensures ids == IDsOf(items)
    {
      ids := {};
      for i := 0 to |items|
        invariant ids == IDsOf(items[..i])
      {
        assert items[..i + 1] == items[..i] + [items[i]];
        ids := ids + {SecretClientID(items[i])};
      }
      assert items[..|items|] == items;
    }

    /**
     * The List call and the first loop of unregistration: the distinct
     * client ids of the secrets owned by `key`.
     */
    method ListOwnedClientIDs(key: NamespacedName) returns (ids: set<Bytes>, err: Option<Error>)
      ensures err == if faults.listSecrets.Some? then Some(Failed(faults.listSecrets.value)) else None
      ensures err.None? ==> ids == OwnedIDs(secrets, key)
    {
      var items;
      items, err := ListSecrets(key.namespace, key.name);
      if err.Some? {
        return {}, err;
      }
      ids := CollectClientIDs(items);
      ListedIDs(items, secrets, key);
    }

    /**
     * The second loop of unregistration: deletes the ids of `ids` one by one,
     * in an arbitrary order (Go's map iteration order), and stops at the
     * first failed delete. `order` is the ids tried.
     */
    method DeleteClientIDs(ids: set<Bytes>) returns (err: Option<Error>, ghost order: seq<Bytes>)
      modifies this`registry, this`calls
      ensures DeletionRun(ids, order, faults, err)
      ensures registry == old(registry) - Deleted(order, faults)
      ensures calls == old(calls) + DeleteCalls(order)
    {
      order := [];
      var pending := ids;
      while pending != {}
        invariant DeletionProgress(ids, pending, order, faults)
        invariant registry == old(registry) - Deleted(order, faults)
        invariant calls == old(calls) + DeleteCalls(order)
        decreases pending
      {
        var id :| id in pending;
        err := DeleteOAuth2Client(id);
        DeletedStep(order, id, faults);
        if err.Some? {
          DeletionFails(ids, pending, order, id, faults);
          order := order + [id];
          return;
        }
        DeletionProgressStep(ids, pending, order, id, faults);
        order := order + [id];
        pending := pending - {id};
      }
      err := None;
      DeletionCompletes(ids, order, faults);
    }

    /**
     * Deletes every distinct client id found in the secrets owned by `key`,
     * stopping at the first failed delete.
     */
    method UnregisterOAuth2Clients(key: NamespacedName) returns (err: Option<Error>)
      modifies this`registry, this`calls
      ensures Unregistered(old(State()), key, faults, State(), err)
    {
      var ids, listErr := ListOwnedClientIDs(key);
      if listErr.Some? {
        return listErr;
      }
      ghost var order;
      err, order := DeleteClientIDs(ids);
      UnregisteredByRun(old(State()), key, faults, order, State(), err);
    }

    /** One reconciliation pass for the resource named `req`. */
    method Reconcile(req: NamespacedName) returns (err: Option<Error>)
      modifies this
      ensures ReconcileOutcome(old(State()), req, faults, State(), err)
    {
      var got := GetResource(req);
      if got.Failure? {
        if got.error.NotFound? {
          err := UnregisterOAuth2Clients(req);
          return;
        }
        return Some(got.error);
      }
      var c := got.value;
      if c.generation != c.status.observedGeneration {
        var secretKey := NamespacedName(req.namespace, c.spec.secretName);
        var loaded := GetSecret(secretKey);
        if loaded.Failure? {
          if loaded.error.NotFound? {
            err := RegisterOAuth2Client(c);
            return;
          }
          return Some(loaded.error);
        }
        var secret := loaded.value;
        var parsed := ParseSecret(secret);
        if parsed.Failure? {
          return Some(parsed.error);
        }
        var credentials := parsed.value;
        var registered, getErr := GetOAuth2Client(credentials.id);
        if getErr.Some? {
          return getErr;
        }
        if !registered {
          err := RegisterOAuth2ClientWithCredentials(c, credentials);
          if err.Some? {
            return;
          }
          var labels := if secret.labels.None? then map[] else secret.labels.value;
          secret := secret.(labels := Some(labels[OwnerLabel := c.name]));
          err := UpdateSecret(secretKey, secret);
          return;
        }
        err := UpdateRegisteredOAuth2Client(c, credentials);
        return;
      }
      return None;
    }
  }
}
