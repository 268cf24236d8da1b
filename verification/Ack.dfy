/** Installing and removing the ACK RDS controller: its secret, its config map
    and the replicas of its deployment (createOrUpdateSecret,
    createOrUpdateConfigMap, startRDSController, waitForRDSController,
    stopRDSController). */
module Ack {
  import opened Wrappers
  import opened Store
  import opened World
  import opened Protocol
  import opened Runs
  import opened Interference
  import opened Api

  type Credentials = map<string, string>

  /** What validateAWSParameter demands. */
  predicate Complete(creds: Credentials) {
    Given(creds, AccessKey()) && Given(creds, SecretKey()) && Given(creds, Region())
  }

  function AckSecretFor(creds: Credentials): (data: map<string, string>)
    requires Complete(creds)
    ensures GoodSecret(data)
  {
    map[AccessKey() := creds[AccessKey()], SecretKey() := creds[SecretKey()]]
  }

  function OrDefault(creds: Credentials, name: string, default: string): string {
    if name in creds then creds[name] else default
  }

  function AckConfigFor(creds: Credentials): (data: map<string, string>)
    requires Complete(creds)
    ensures GoodConfig(data)
  {
    map["AWS_ENDPOINT_URL" := "", "ACK_ENABLE_DEVELOPMENT_LOGGING" := "false", "ACK_WATCH_NAMESPACE" := ""]
      ["ACK_LOG_LEVEL" := OrDefault(creds, "ACK_LOG_LEVEL", "info")]
      ["ACK_RESOURCE_TAGS" := OrDefault(creds, "ACK_RESOURCE_TAGS", "rhoda")]
      [Region() := creds[Region()]]
  }

  /** Complete credentials: none of the three entries is missing or empty. */
  lemma CompleteMeans(creds: Credentials)
    ensures Complete(creds) <==>
            forall name <- ["AWS_ACCESS_KEY_ID", "AWS_SECRET_ACCESS_KEY", "AWS_REGION"] ::
              name in creds && |creds[name]| > 0
  {
    var names := ["AWS_ACCESS_KEY_ID", "AWS_SECRET_ACCESS_KEY", "AWS_REGION"];
    assert AccessKey() == names[0] && SecretKey() == names[1] && Region() == names[2];
  }

  /** ACK reads the inventory's own key, secret and region, with the log level and the
      tags the credentials name or else the defaults; it is to watch all namespaces, at
      the endpoint of AWS. */
  lemma SuppliedFrom(creds: Credentials)
    requires Complete(creds)
    ensures AckSecretFor(creds).Keys == {"AWS_ACCESS_KEY_ID", "AWS_SECRET_ACCESS_KEY"} <= creds.Keys
    ensures forall name <- AckSecretFor(creds) :: AckSecretFor(creds)[name] == creds[name]
    ensures var m := AckConfigFor(creds);
      && m.Keys == {"AWS_REGION", "ACK_LOG_LEVEL", "ACK_RESOURCE_TAGS", "AWS_ENDPOINT_URL",
                    "ACK_ENABLE_DEVELOPMENT_LOGGING", "ACK_WATCH_NAMESPACE"}
      && "AWS_REGION" in creds && m["AWS_REGION"] == creds["AWS_REGION"]
      && m["ACK_LOG_LEVEL"] == (if "ACK_LOG_LEVEL" in creds then creds["ACK_LOG_LEVEL"] else "info")
      && m["ACK_RESOURCE_TAGS"] == (if "ACK_RESOURCE_TAGS" in creds then creds["ACK_RESOURCE_TAGS"] else "rhoda")
      && m["AWS_ENDPOINT_URL"] == "" && m["ACK_WATCH_NAMESPACE"] == ""
      && m["ACK_ENABLE_DEVELOPMENT_LOGGING"] == "false"
  {
    assert |Region()| == 10 && |"AWS_ENDPOINT_URL"| == 16 && |"ACK_WATCH_NAMESPACE"| == 19;
    assert |"ACK_LOG_LEVEL"| == 13 && |"ACK_RESOURCE_TAGS"| == 17 && |"ACK_ENABLE_DEVELOPMENT_LOGGING"| == 30;
  }

  /** The ACK controller is supplied from these credentials and scaled up. */
  ghost predicate Installed(w: World, creds: Credentials) {
    && Complete(creds)
    && w.ackSecret == Some(AckSecretFor(creds)) && w.ackConfig == Some(AckConfigFor(creds))
    && Running(w)
  }

  ghost predicate Ready(w: World) {
    w.deployment.Some? && w.deployment.value.it.ready > 0
  }

  /** While the worker reads, its inventory stays finalized and the footprint as it is. */
  lemma StaysHeld(w: World, w': World, key: Key)
    requires Rely(InventoryWorker, w, w') && HasFinalizer(w, key)
    ensures HasFinalizer(w', key) && SomeFinalizer(w') && SameFootprint(w, w')
  {
    assert Kept(Finalizers, InventoryWorker, w, w');
    assert SameHold(w, w', key);
    assert Kept(Footprint, InventoryWorker, w, w');
  }

  /** createOrUpdateSecret: what it leaves alone, what it leaves behind, and that
      it writes nothing where nothing is to change. */
  method CreateOrUpdateSecret(c: Cluster, key: Key, creds: Credentials) returns (e: Option<Error>)
    requires c.Valid() && HasFinalizer(c.w, key) && Complete(creds)
    modifies c
    ensures c.Valid() && Keeps(InventoryWorker, {Footprint}, old(c.w), c.w)
    ensures c.outside >= old(c.outside) && c.faults >= old(c.faults)
    ensures c.outside == old(c.outside) ==> OnlyFootprint(old(c.w), c.w)
    ensures Replicas(c.w) == Replicas(old(c.w)) && c.w.ackConfig == old(c.w).ackConfig
    ensures e.None? ==> c.w.ackSecret == Some(AckSecretFor(creds)) && c.faults == old(c.faults)
    ensures e.Some? ==> c.faults > old(c.faults)
    ensures old(c.w).ackSecret == Some(AckSecretFor(creds)) ==>
              c.writes == old(c.writes) && c.Since(InventoryWorker, old(c.w), old(c.outside))
  {
    hide AckSecretFor;
    var secret := c.GetAckSecret();
    StaysHeld(old(c.w), c.w, key);
    if secret.Err? && secret.error != NotFound {
      return Some(secret.error);
    }
    if secret == Ok(AckSecretFor(creds)) {
      return None;
    }
    ghost var read := c.w;
    e := c.WriteAck(AckSecretTo(Some(AckSecretFor(creds))));
    KeepsTransitive(InventoryWorker, {}, {Footprint}, {Footprint}, old(c.w), read, c.w);
  }

  /** createOrUpdateConfigMap, likewise. */
  method CreateOrUpdateConfigMap(c: Cluster, key: Key, creds: Credentials) returns (e: Option<Error>)
    requires c.Valid() && HasFinalizer(c.w, key) && Complete(creds)
    modifies c
    ensures c.Valid() && Keeps(InventoryWorker, {Footprint}, old(c.w), c.w)
    ensures c.outside >= old(c.outside) && c.faults >= old(c.faults)
    ensures c.outside == old(c.outside) ==> OnlyFootprint(old(c.w), c.w)
    ensures Replicas(c.w) == Replicas(old(c.w)) && c.w.ackSecret == old(c.w).ackSecret
    ensures e.None? ==> c.w.ackConfig == Some(AckConfigFor(creds)) && c.faults == old(c.faults)
    ensures e.Some? ==> c.faults > old(c.faults)
    ensures old(c.w).ackConfig == Some(AckConfigFor(creds)) ==>
              c.writes == old(c.writes) && c.Since(InventoryWorker, old(c.w), old(c.outside))
  {
    hide AckConfigFor;
    var configMap := c.GetAckConfig();
    StaysHeld(old(c.w), c.w, key);
    if configMap.Err? && configMap.error != NotFound {
      return Some(configMap.error);
    }
    if configMap == Ok(AckConfigFor(creds)) {
      return None;
    }
    ghost var read := c.w;
    e := c.WriteAck(AckConfigTo(Some(AckConfigFor(creds))));
    KeepsTransitive(InventoryWorker, {}, {Footprint}, {Footprint}, old(c.w), read, c.w);
  }

  /** startRDSController: scales a stopped controller up, and touches no other. */
  method StartRDSController(c: Cluster, key: Key) returns (e: Option<Error>)
    requires c.Valid() && HasFinalizer(c.w, key) && Supplied(c.w)
    modifies c
    ensures c.Valid() && Keeps(InventoryWorker, {Footprint}, old(c.w), c.w)
    ensures c.outside >= old(c.outside) && c.faults >= old(c.faults)
    ensures c.outside == old(c.outside) ==> OnlyFootprint(old(c.w), c.w)
    ensures c.w.ackSecret == old(c.w).ackSecret && c.w.ackConfig == old(c.w).ackConfig
    ensures e.None? ==>
              && Running(c.w) && c.faults == old(c.faults)
              && Replicas(c.w) == if Replicas(old(c.w)) == Some(Some(0)) then Some(Some(1)) else Replicas(old(c.w))
    ensures e.Some? ==> c.faults > old(c.faults) || (e == Some(NotFound) && old(c.w).deployment.None?)
    ensures Running(old(c.w)) ==>
              c.writes == old(c.writes) && c.Since(InventoryWorker, old(c.w), old(c.outside))
  {
    hide GoodSecret, GoodConfig;
    var deployment := c.GetDeployment();
    StaysHeld(old(c.w), c.w, key);
    if deployment.Err? {
      return Some(deployment.error);
    }
    if deployment.value.it.replicas != Some(0) {
      return None;
    }
    ghost var read := c.w;
    e := c.ScaleDeployment(deployment.value.rv, 1);
    KeepsTransitive(InventoryWorker, {}, {Footprint}, {Footprint}, old(c.w), read, c.w);
  }

  /** waitForRDSController: one look at the deployment, no waiting. */
  method WaitForRDSController(c: Cluster) returns (r: Result<bool>)
    requires c.Valid()
    modifies c
    ensures c.Valid() && c.Since(InventoryWorker, old(c.w), old(c.outside)) && c.writes == old(c.writes)
    ensures c.faults >= old(c.faults)
    ensures r.Ok? ==> c.faults == old(c.faults) && old(c.w).deployment.Some? && (r.value <==> Ready(old(c.w)))
    ensures r.Err? ==> c.faults > old(c.faults) || (r == Err(NotFound) && old(c.w).deployment.None?)
  {
    var deployment := c.GetDeployment();
    if deployment.Err? {
      return Err(deployment.error);
    }
    r := Ok(deployment.value.it.ready > 0);
  }

  /** stopRDSController: scales a running controller to zero, for an inventory
      that is deleted and owns nothing any more. */
  method StopRDSController(c: Cluster, key: Key) returns (e: Option<Error>)
    requires c.Valid() && HasFinalizer(c.w, key) && c.w.inventories[key].it.deleting && !OwnsAdopted(c.w, key)
    modifies c
    ensures c.Valid() && Keeps(InventoryWorker, {Footprint}, old(c.w), c.w)
    ensures c.outside >= old(c.outside) && c.faults >= old(c.faults)
    ensures c.w.ackSecret == old(c.w).ackSecret && c.w.ackConfig == old(c.w).ackConfig
    ensures e.None? ==>
              !Running(c.w) && c.faults == old(c.faults) && old(c.w).deployment.Some? && Replicas(c.w) == Some(Some(0))
    ensures e.Some? ==> c.faults > old(c.faults) || (e == Some(NotFound) && old(c.w).deployment.None?)
  {
    var deployment := c.GetDeployment();
    assert Kept(Footprint, InventoryWorker, old(c.w), c.w);
    if deployment.Err? {
      return Some(deployment.error);
    }
    if deployment.value.it.replicas == Some(0) {
      return None;
    }
    ghost var read := c.w;
    StaysReleased(old(c.w), read, key);
    e := c.ScaleDeployment(deployment.value.rv, 0);
    KeepsTransitive(InventoryWorker, {}, {Footprint}, {Footprint}, old(c.w), read, c.w);
  }

  /** A deleted inventory that owns nothing stays so while others act. */
  lemma StaysReleased(w: World, w': World, key: Key)
    requires Keeps(InventoryWorker, {Footprint}, w, w')
    requires HasFinalizer(w, key) && w.inventories[key].it.deleting && !OwnsAdopted(w, key)
    ensures HasFinalizer(w', key) && w'.inventories[key].it.deleting && !OwnsAdopted(w', key)
  {
    assert Kept(Finalizers, InventoryWorker, w, w');
    assert SameHold(w, w', key);
    assert Kept(Owned, InventoryWorker, w, w');
  }
}
