/**
 * The hub's helm-repository workload: the desired deployment and service
 * built from a MultiClusterHub resource, and the drift check that compares
 * an observed deployment with the desired one on five watched fields and
 * corrects the ones that differ.
 */
module HelmRepo {
  import opened Wrappers

  // ---------------------------------------------------------------------
  // Inputs
  // ---------------------------------------------------------------------

  /** The user-facing part of a MultiClusterHub resource. The Mongo sub-spec is inert and left out. */
  datatype HubSpec = HubSpec(
    version: string,
    imageRepository: string,
    imagePullPolicy: string,
    imagePullSecret: string,
    imageTagSuffix: string,
    replicaCount: Option<int>,              // a Go `*int`: None is a nil pointer
    nodeSelector: map<string, string>)      // a nil map and an empty map are both map[]

  /** A MultiClusterHub resource: its identity and its spec. */
  datatype Hub = Hub(name: string, namespace: string, spec: HubSpec)

  /** Values computed elsewhere: the ingress domain and the resolved image digests. */
  datatype Cache = Cache(ingressDomain: string, imageShaDigests: map<string, string>)

  // ---------------------------------------------------------------------
  // Outputs
  // ---------------------------------------------------------------------

  newtype int32 = x: int | -0x8000_0000 <= x < 0x8000_0000

  /** A non-owning back-reference from a generated object to the hub that produced it. */
  datatype OwnerRef = OwnerRef(kind: string, name: string, namespace: string)

  datatype ObjectMeta = ObjectMeta(
    name: string,
    namespace: string,
    labels: map<string, string>,
    ownerRefs: seq<OwnerRef>)

  datatype Container = Container(name: string, image: string, pullPolicy: string)

  /** The pod template; a deployment of this workload has exactly one container. */
  datatype PodSpec = PodSpec(
    pullSecrets: seq<string>,               // names of the referenced pull secrets
    container: Container,
    nodeSelector: map<string, string>)

  datatype Deploy = Deploy(meta: ObjectMeta, replicas: Option<int32>, pod: PodSpec)

  datatype Service = Service(namespace: string, ownerRefs: seq<OwnerRef>)

  // ---------------------------------------------------------------------
  // Constants
  // ---------------------------------------------------------------------

  /** Name of the workload, of its container and of its image within the repository. */
  const ComponentName := "multiclusterhub-repo"
  /** Kind written into owner references. */
  const HubKind := "MultiClusterHub"
  /** Replica count used when the hub leaves it unset; the builder and the check share it. */
  const DefaultReplicas := 1

  // ---------------------------------------------------------------------
  // Desired-state builder
  // ---------------------------------------------------------------------

  /** Go's `int32(n)`: keep the low 32 bits, read as two's complement. */
  function ToInt32(n: int): (r: int32)
    ensures -0x8000_0000 <= n < 0x8000_0000 ==> r as int == n
    ensures (n - r as int) % 0x1_0000_0000 == 0
  {
    var m := n % 0x1_0000_0000;
    assert n == 0x1_0000_0000 * (n / 0x1_0000_0000) + m;
    if m < 0x8000_0000 then m as int32 else (m - 0x1_0000_0000) as int32
  }

  /** The replica count the hub asks for, with the default for a nil pointer. */
  function EffectiveReplicas(spec: HubSpec): int {
    spec.replicaCount.GetOr(DefaultReplicas)
  }

  /** Key under which the cache holds the digest of this workload's image. */
  function DigestKey(repository: string): string {
    repository + "/" + ComponentName
  }

  /** The tag part appended after the version: nothing when the suffix is empty. */
  function TagSuffixPart(suffix: string): string {
    if suffix == "" then "" else "-" + suffix
  }

  function TaggedImage(repository: string, version: string, suffix: string): string {
    repository + "/" + ComponentName + ":" + version + TagSuffixPart(suffix)
  }

  function DigestImage(repository: string, digest: string): string {
    repository + "/" + ComponentName + "@" + digest
  }

  /** The image reference: the digest form when the cache has a digest, the tag form otherwise. */
  function Image(spec: HubSpec, cache: Cache): string {
    var key := DigestKey(spec.imageRepository);
    if key in cache.imageShaDigests then DigestImage(spec.imageRepository, cache.imageShaDigests[key])
    else TaggedImage(spec.imageRepository, spec.version, spec.imageTagSuffix)
  }

  /** The pull-secret list: one named secret, or none when the name is empty. */
  function PullSecrets(secret: string): seq<string> {
    if secret == "" then [] else [secret]
  }

  function OwnerRefTo(hub: Hub): OwnerRef {
    OwnerRef(HubKind, hub.name, hub.namespace)
  }

  /** Labels written on the deployment; the drift check passes them through. */
  const Labels: map<string, string> := map["app" := ComponentName]

  /** The canonical deployment for `hub`; total over every hub and cache. */
  function Deployment(hub: Hub, cache: Cache): (d: Deploy)
    // An empty pull-secret name yields no pull secrets, never a list holding "".
    ensures "" !in d.pod.pullSecrets
    ensures hub.spec.imagePullSecret == "" <==> d.pod.pullSecrets == []
    ensures hub.spec.imagePullSecret != "" <==> d.pod.pullSecrets == [hub.spec.imagePullSecret]
    // Selector, pull policy and namespace are copied; the one owner reference names the hub.
    ensures d.pod.nodeSelector == hub.spec.nodeSelector
    ensures d.pod.container.pullPolicy == hub.spec.imagePullPolicy
    ensures d.meta.namespace == hub.namespace
    ensures d.meta.ownerRefs == [OwnerRef(HubKind, hub.name, hub.namespace)]
    // A nil replica count means one replica; one in int32 range is used as given.
    ensures hub.spec.replicaCount.None? ==> d.replicas == Some(1 as int32)
    ensures hub.spec.replicaCount.Some? && -0x8000_0000 <= hub.spec.replicaCount.value < 0x8000_0000 ==>
      d.replicas == Some(hub.spec.replicaCount.value as int32)
  {
    Deploy(
      ObjectMeta(ComponentName, hub.namespace, Labels, [OwnerRefTo(hub)]),
      Some(ToInt32(EffectiveReplicas(hub.spec))),
      PodSpec(
        PullSecrets(hub.spec.imagePullSecret),
        Container(ComponentName, Image(hub.spec, cache), hub.spec.imagePullPolicy),
        hub.spec.nodeSelector))
  }

  /** The exposure object: it lives in the hub's namespace and names the hub as owner. */
  function ServiceFor(hub: Hub): (s: Service)
    ensures s.namespace == hub.namespace
    ensures |s.ownerRefs| == 1 && s.ownerRefs[0].name == hub.name
    ensures s.ownerRefs[0].kind == HubKind && s.ownerRefs[0].namespace == hub.namespace
  {
    Service(hub.namespace, [OwnerRefTo(hub)])
  }

  // ---------------------------------------------------------------------
  // Drift detection: the five watched fields and everything else
  // ---------------------------------------------------------------------

  /** The fields the drift check compares, in the order it compares them. */
  datatype Watched = Watched(
    pullSecrets: seq<string>,
    image: string,
    pullPolicy: string,
    nodeSelector: map<string, string>,
    replicas: Option<int32>)

  /** Everything of a deployment the drift check never looks at. */
  datatype Unwatched = Unwatched(meta: ObjectMeta, containerName: string)

  function WatchedOf(d: Deploy): Watched {
    Watched(d.pod.pullSecrets, d.pod.container.image, d.pod.container.pullPolicy,
            d.pod.nodeSelector, d.replicas)
  }

  function UnwatchedOf(d: Deploy): Unwatched {
    Unwatched(d.meta, d.pod.container.name)
  }

  /** The deployment made of the watched fields `w` and the other fields `u`. */
  function Assemble(w: Watched, u: Unwatched): (d: Deploy)
    ensures WatchedOf(d) == w && UnwatchedOf(d) == u
  {
    Deploy(u.meta, w.replicas,
           PodSpec(w.pullSecrets, Container(u.containerName, w.image, w.pullPolicy), w.nodeSelector))
  }

  /** No drift: `observed` agrees with `desired` on all five watched fields. */
  predicate InSync(observed: Deploy, desired: Deploy) {
    WatchedOf(observed) == WatchedOf(desired)
  }

  /** `observed` with its watched fields taken from `desired` and all others kept. */
  function Reconcile(observed: Deploy, desired: Deploy): (r: Deploy)
    ensures WatchedOf(r) == WatchedOf(desired)
    ensures UnwatchedOf(r) == UnwatchedOf(observed)
    ensures InSync(observed, desired) ==> r == observed
  {
    DeployDeterminedByParts(observed);
    Assemble(WatchedOf(desired), UnwatchedOf(observed))
  }

  /** ValidateDeployment: recompute the desired deployment, copy `observed`, and
      overwrite each of the five watched fields that differs, raising `changed`. */
  method ValidateDeployment(hub: Hub, cache: Cache, observed: Deploy)
    returns (corrected: Deploy, changed: bool)
    ensures changed <==> !InSync(observed, Deployment(hub, cache))
    ensures corrected == Reconcile(observed, Deployment(hub, cache))
    // Corollaries of the clause above and the contract of Reconcile, spelled out for callers:
    ensures WatchedOf(corrected) == WatchedOf(Deployment(hub, cache))
    ensures UnwatchedOf(corrected) == UnwatchedOf(observed)
    ensures !changed ==> corrected == observed
    // No churn: the desired deployment itself, fed back in, is returned unchanged without drift.
    ensures observed == Deployment(hub, cache) ==> corrected == observed && !changed
  {
    var desired := Deployment(hub, cache);
    var found := observed;
    changed := false;

    // 1. pull secrets
    if found.pod.pullSecrets != desired.pod.pullSecrets {
      found := found.(pod := found.pod.(pullSecrets := desired.pod.pullSecrets));
      changed := true;
    }
    // 2. container image
    if found.pod.container.image != desired.pod.container.image {
      found := found.(pod := found.pod.(container := found.pod.container.(image := desired.pod.container.image)));
      changed := true;
    }
    // 3. container pull policy
    if found.pod.container.pullPolicy != desired.pod.container.pullPolicy {
      found := found.(pod := found.pod.(container := found.pod.container.(pullPolicy := desired.pod.container.pullPolicy)));
      changed := true;
    }
    // 4. node selector
    if found.pod.nodeSelector != desired.pod.nodeSelector {
      found := found.(pod := found.pod.(nodeSelector := desired.pod.nodeSelector));
      changed := true;
    }
    // 5. replica count
    if found.replicas != desired.replicas {
      found := found.(replicas := desired.replicas);
      changed := true;
    }
    corrected := found;
  }

  // ---------------------------------------------------------------------
  // Lemmas
  // ---------------------------------------------------------------------

  /** A deployment is exactly its watched and its unwatched fields. */
  lemma DeployDeterminedByParts(d: Deploy)
    ensures Assemble(WatchedOf(d), UnwatchedOf(d)) == d
  {
  }

  /** Two deployments that agree watched-field by watched-field and elsewhere are equal. */
  lemma DeployExtensional(a: Deploy, b: Deploy)
    requires WatchedOf(a) == WatchedOf(b) && UnwatchedOf(a) == UnwatchedOf(b)
    ensures a == b
  {
    DeployDeterminedByParts(a);
    DeployDeterminedByParts(b);
  }

  /** Feeding the desired deployment back into the check changes nothing: a corollary of
      Reconcile's contract, stated for the deployment the builder produces. ValidateDeployment
      states the same outcome for its own result. */
  lemma NoDriftNoChurn(hub: Hub, cache: Cache)
    ensures InSync(Deployment(hub, cache), Deployment(hub, cache))
    ensures Reconcile(Deployment(hub, cache), Deployment(hub, cache)) == Deployment(hub, cache)
  {
  }

  /** Edits outside the five watched fields (labels, name, owner references, the
      container's name) never count as drift and survive correction. */
  lemma UnwatchedChangesIgnored(hub: Hub, cache: Cache, meta: ObjectMeta, containerName: string)
    ensures var desired := Deployment(hub, cache);
      var observed := desired.(meta := meta, pod := desired.pod.(container := desired.pod.container.(name := containerName)));
      InSync(observed, desired) && Reconcile(observed, desired) == observed
  {
  }

  /** An observed copy of the desired deployment whose only edits are to watched
      fields is corrected back to the desired deployment itself. */
  lemma CorrectionRestoresDesired(observed: Deploy, desired: Deploy)
    requires UnwatchedOf(observed) == UnwatchedOf(desired)
    ensures Reconcile(observed, desired) == desired
    ensures !InSync(observed, desired) <==> observed != desired
  {
    DeployExtensional(Reconcile(observed, desired), desired);
    if observed != desired {
      if WatchedOf(observed) == WatchedOf(desired) {
        DeployExtensional(observed, desired);
      }
    }
  }

  /** Correcting once is enough: the corrected deployment is in sync and a second pass leaves it alone. */
  lemma ReconcileConverges(observed: Deploy, desired: Deploy)
    ensures InSync(Reconcile(observed, desired), desired)
    ensures Reconcile(Reconcile(observed, desired), desired) == Reconcile(observed, desired)
  {
  }

  /** Unset and explicit-default replica counts build the same deployment, so
      switching between them is not drift. */
  lemma NilReplicasMeansDefault(hub: Hub, cache: Cache)
    ensures Deployment(hub.(spec := hub.spec.(replicaCount := None)), cache)
         == Deployment(hub.(spec := hub.spec.(replicaCount := Some(DefaultReplicas))), cache)
  {
  }

  /** With a digest in the cache the image is pinned to it, whatever the version and tag suffix. */
  lemma DigestOverridesTag(spec: HubSpec, cache: Cache, version: string, suffix: string)
    requires DigestKey(spec.imageRepository) in cache.imageShaDigests
    ensures Image(spec, cache) == DigestImage(spec.imageRepository, cache.imageShaDigests[DigestKey(spec.imageRepository)])
    ensures Image(spec.(version := version, imageTagSuffix := suffix), cache) == Image(spec, cache)
  {
  }

  /** Splitting `p + x + q` back into `x` when the outer parts are known. */
  lemma {:induction false} MiddleDetermined(p: string, x: string, y: string, q: string)
    requires p + x + q == p + y + q
    ensures x == y
  {
    var s := p + x + q;
    assert |x| == |y|;
    assert s[|p|..|p| + |x|] == x;
    assert (p + y + q)[|p|..|p| + |y|] == y;
  }

  /** The tag-suffix part can be read back as the suffix. */
  lemma {:induction false} TagSuffixPartInjective(s1: string, s2: string)
    requires TagSuffixPart(s1) == TagSuffixPart(s2)
    ensures s1 == s2
  {
    if s1 != "" && s2 != "" {
      assert s1 == TagSuffixPart(s1)[1..];
      assert s2 == TagSuffixPart(s2)[1..];
    }
  }

  /** Without a digest, the image reference determines the version and the tag
      suffix: a different version, or a different suffix, is a different image. */
  lemma {:induction false} TaggedImageInjective(repository: string, v1: string, v2: string, s1: string, s2: string)
    requires TaggedImage(repository, v1, s1) == TaggedImage(repository, v2, s2)
    requires v1 == v2 || s1 == s2
    ensures v1 == v2 && s1 == s2
  {
    var p := repository + "/" + ComponentName + ":";
    var q1, q2 := TagSuffixPart(s1), TagSuffixPart(s2);
    assert TaggedImage(repository, v1, s1) == p + v1 + q1;
    assert TaggedImage(repository, v2, s2) == p + v2 + q2;
    if s1 == s2 {
      MiddleDetermined(p, v1, v2, q1);
    } else {
      var pv := p + v1;
      assert pv + q1 == pv + q2;
      assert q1 == (pv + q1)[|pv|..];
      assert q2 == (pv + q2)[|pv|..];
      TagSuffixPartInjective(s1, s2);
    }
  }

  /** An upgrade of the hub's version moves the image unless a digest pins it:
      the deployment built for the old version is drift against the new one and
      is corrected to the new deployment. */
  lemma {:induction false} VersionUpgradeIsDrift(hub: Hub, cache: Cache, version: string)
    requires version != hub.spec.version
    requires DigestKey(hub.spec.imageRepository) !in cache.imageShaDigests
    ensures var upgraded := hub.(spec := hub.spec.(version := version));
      !InSync(Deployment(hub, cache), Deployment(upgraded, cache)) &&
      Reconcile(Deployment(hub, cache), Deployment(upgraded, cache)) == Deployment(upgraded, cache)
  {
    var upgraded := hub.(spec := hub.spec.(version := version));
    if Image(hub.spec, cache) == Image(upgraded.spec, cache) {
      TaggedImageInjective(hub.spec.imageRepository, hub.spec.version, version,
                           hub.spec.imageTagSuffix, hub.spec.imageTagSuffix);
    }
    CorrectionRestoresDesired(Deployment(hub, cache), Deployment(upgraded, cache));
  }

  /** With a digest in the cache, a version change alone is not drift. */
  lemma VersionChangeUnderDigestIsNoDrift(hub: Hub, cache: Cache, version: string)
    requires DigestKey(hub.spec.imageRepository) in cache.imageShaDigests
    ensures InSync(Deployment(hub, cache), Deployment(hub.(spec := hub.spec.(version := version)), cache))
  {
  }
}
