/**
 * The concrete scenarios of the helm-repository tests: building from an
 * all-empty hub and from a hub with only the required values, the service's
 * identity, and the six-row drift table (no drift, then one edited field per row).
 */
module HelmRepoCases {
  import opened Wrappers
  import opened HelmRepo

  const NoDigests := Cache("", map[])

  /** A hub whose strings are all empty and whose replica count is 1. */
  const EmptyHub := Hub("", "test", HubSpec("", "", "", "", "", Some(1), map[]))

  /** A hub with only version, repository, pull policy and tag suffix set. */
  const EssentialsHub := Hub("", "test", HubSpec("test", "test", "test", "", "test", Some(1), map[]))

  /** The hub of the drift table. */
  const TableHub := Hub("", "test",
    HubSpec("1.0.0", "quay.io/open-cluster-management", "Always", "test", "", Some(1), map["test" := "test"]))

  const TableCache := Cache("testIngress", map[])

  /** The all-empty hub builds a deployment with empty image segments, no pull secrets and one replica. */
  lemma EmptyHubBuilds()
    ensures var d := Deployment(EmptyHub, NoDigests);
      d.pod.container.image == TaggedImage("", "", "") &&
      d.pod.pullSecrets == [] &&
      d.replicas == Some(1 as int32) &&
      d.pod.nodeSelector == map[] &&
      d.meta.namespace == "test"
  {
  }

  /** The hub with only required values builds the tag-form image and no pull secrets. */
  lemma EssentialsHubBuilds()
    ensures var d := Deployment(EssentialsHub, NoDigests);
      d.pod.container.image == TaggedImage("test", "test", "test") &&
      d.pod.container.pullPolicy == "test" &&
      d.pod.pullSecrets == [] &&
      d.pod.nodeSelector == map[] &&
      d.replicas == Some(1 as int32)
  {
  }

  /** The service of hub testName in testNS lives in testNS and its first owner is testName. */
  lemma ServiceNamesHub()
    ensures var s := ServiceFor(Hub("testName", "testNS", HubSpec("", "", "", "", "", None, map[])));
      s.namespace == "testNS" && |s.ownerRefs| > 0 && s.ownerRefs[0].name == "testName"
  {
  }

  /** Row 1: the desired deployment itself is returned unchanged, without drift. */
  lemma ValidDeploymentRow()
    ensures var dep := Deployment(TableHub, TableCache);
      InSync(dep, dep) && Reconcile(dep, dep) == dep
  {
  }

  /** Row 2: cleared pull secrets are drift and the secret "test" is restored. */
  lemma ModifiedPullSecretRow()
    ensures var dep := Deployment(TableHub, TableCache);
      var dep1 := dep.(pod := dep.pod.(pullSecrets := []));
      !InSync(dep1, dep) && Reconcile(dep1, dep) == dep && Reconcile(dep1, dep).pod.pullSecrets == ["test"]
  {
    var dep := Deployment(TableHub, TableCache);
    CorrectionRestoresDesired(dep.(pod := dep.pod.(pullSecrets := [])), dep);
  }

  /** Row 3: a substituted image is drift and the desired image is restored. */
  lemma ModifiedImageRow()
    ensures var dep := Deployment(TableHub, TableCache);
      var dep2 := dep.(pod := dep.pod.(container := dep.pod.container.(image := "differentImage")));
      !InSync(dep2, dep) && Reconcile(dep2, dep) == dep
  {
    var dep := Deployment(TableHub, TableCache);
    CorrectionRestoresDesired(dep.(pod := dep.pod.(container := dep.pod.container.(image := "differentImage"))), dep);
  }

  /** Row 4: pull policy Never is drift and Always is restored. */
  lemma ModifiedPullPolicyRow()
    ensures var dep := Deployment(TableHub, TableCache);
      var dep3 := dep.(pod := dep.pod.(container := dep.pod.container.(pullPolicy := "Never")));
      !InSync(dep3, dep) && Reconcile(dep3, dep) == dep && Reconcile(dep3, dep).pod.container.pullPolicy == "Always"
  {
    var dep := Deployment(TableHub, TableCache);
    assert "Always" != "Never";
    CorrectionRestoresDesired(dep.(pod := dep.pod.(container := dep.pod.container.(pullPolicy := "Never"))), dep);
  }

  /** Row 5: a cleared node selector is drift and {"test": "test"} is restored. */
  lemma ModifiedNodeSelectorRow()
    ensures var dep := Deployment(TableHub, TableCache);
      var dep4 := dep.(pod := dep.pod.(nodeSelector := map[]));
      !InSync(dep4, dep) && Reconcile(dep4, dep) == dep && Reconcile(dep4, dep).pod.nodeSelector == map["test" := "test"]
  {
    var dep := Deployment(TableHub, TableCache);
    assert "test" in dep.pod.nodeSelector;
    CorrectionRestoresDesired(dep.(pod := dep.pod.(nodeSelector := map[])), dep);
  }

  /** Row 6: zero observed replicas against one desired is drift and one is restored. */
  lemma ModifiedReplicaCountRow()
    ensures var dep := Deployment(TableHub, TableCache);
      var dep5 := dep.(replicas := Some(0 as int32));
      !InSync(dep5, dep) && Reconcile(dep5, dep) == dep && Reconcile(dep5, dep).replicas == Some(1 as int32)
  {
    var dep := Deployment(TableHub, TableCache);
    CorrectionRestoresDesired(dep.(replicas := Some(0 as int32)), dep);
  }

  /** The drift table run through ValidateDeployment itself: every edited row
      reports drift and returns the desired deployment. */
  method ValidateDeploymentTable() returns (results: seq<(Deploy, bool)>)
    ensures |results| == 6
    ensures results[0] == (Deployment(TableHub, TableCache), false)
    ensures forall i :: 1 <= i < 6 ==> results[i] == (Deployment(TableHub, TableCache), true)
  {
    var dep := Deployment(TableHub, TableCache);
    var dep1 := dep.(pod := dep.pod.(pullSecrets := []));
    var dep2 := dep.(pod := dep.pod.(container := dep.pod.container.(image := "differentImage")));
    var dep3 := dep.(pod := dep.pod.(container := dep.pod.container.(pullPolicy := "Never")));
    var dep4 := dep.(pod := dep.pod.(nodeSelector := map[]));
    var dep5 := dep.(replicas := Some(0 as int32));
    ModifiedPullSecretRow();
    ModifiedImageRow();
    ModifiedPullPolicyRow();
    ModifiedNodeSelectorRow();
    ModifiedReplicaCountRow();
    var observed := [dep, dep1, dep2, dep3, dep4, dep5];
    results := [];
    var i := 0;
    while i < |observed|
      invariant 0 <= i <= |observed|
      invariant |results| == i
      invariant i > 0 ==> results[0] == (dep, false)
      invariant forall j :: 1 <= j < i ==> results[j] == (dep, true)
    {
      var got, got1 := ValidateDeployment(TableHub, TableCache, observed[i]);
      results := results + [(got, got1)];
      i := i + 1;
    }
  }
}
