# Helm-repository workload of the multicloud hub operator, in Dafny

This project models the `pkg/helmrepo` component of the MultiClusterHub operator:

- `Deployment(mch, cache)` builds the canonical single-container deployment of the hub's
  helm-repository workload from the hub spec (version, image repository, pull policy,
  pull secret, tag suffix, replica count, node selector) and the cache (ingress domain,
  image-digest map);
- `Service(mch)` builds the service, placed in the hub's namespace with the hub as owner;
- `ValidateDeployment(mch, cache, observed)` recomputes the desired deployment and
  compares five fields of the observed one with it: pull secrets, container image,
  container pull policy, node selector and replica count. It overwrites every field that
  differs on a copy of the observed deployment, and reports through `changed` whether any
  field differed.

Layout:

- `wrappers.dfy` (module `Wrappers`) holds `Option`, used for nil pointers.
- `helmrepo.dfy` (module `HelmRepo`) holds the data model, the builder functions, the
  drift check and the lemmas about them.
  - The drift check is the method `ValidateDeployment`. It works on a local copy and a
    flag, one `if` per field.
  - It is specified by `InSync` (the five watched fields agree) and `Reconcile` (the
    watched fields taken from the desired deployment, all others kept from the observed one).
- `helmrepo_cases.dfy` (module `HelmRepoCases`) holds the concrete scenarios of
  `helmrepo_test.go`: one lemma per test case, plus the drift table run through
  `ValidateDeployment` itself.

The model pins down the behaviour that `helmrepo_test.go` fixes. Where the tests leave a
choice open, the model makes these choices:

- An empty pull-secret name gives no pull secrets at all.
- Node selectors are compared by map equality.
- An unset replica count means 1 (the constant `DefaultReplicas`). The builder and the
  check use the same value.
- The image is the digest form `repository/name@digest` when the cache holds a digest
  under `repository/name`. Otherwise it is the tag form `repository/name:version`
  followed by the tag suffix.
  - The component name (`ComponentName`) and the separators `/`, `:` and `@` do not
    appear in the test file. The model fixes them as named constants.
- Two further choices are the model's own:
  - A `-` separates the version from a non-empty tag suffix.
  - The hub's `int` replica count becomes the deployment's `int32` through Go's
    truncating conversion, written out as `ToInt32`.
- `HelmRepoCases.ModifiedImageRow` and row 3 of `HelmRepoCases.ValidateDeploymentTable`
  need the desired image to differ from "differentImage"; every format that starts with
  the repository gives that. The build lemmas state the image as `TaggedImage(...)`. The general
  lemmas state properties that hold for any fixed name and separators, but the proofs of
  the injectivity lemmas spell out the current format and would need editing if it changed.

## Model

| member | source | states |
|---|---|---|
| `HelmRepoCases.EmptyHubBuilds` | pkg/helmrepo/helmrepo_test.go:14-36 | A hub with all strings empty, one replica and an empty digest map builds a deployment with no failure: the image is made of empty segments, there are no pull secrets, one replica, an empty selector, and the namespace is "test" |
| `HelmRepoCases.EssentialsHubBuilds` | pkg/helmrepo/helmrepo_test.go:38-50 | A hub with only version, repository, pull policy and tag suffix builds the tag-form image, keeps the pull policy, and has no pull secrets, an empty selector and one replica |
| `HelmRepo.Deployment` | pkg/helmrepo/helmrepo_test.go:35-49 | Total for every hub and cache. The pull-secret list never holds an empty name: it is empty exactly when the secret name is empty, and otherwise exactly that name. Node selector, pull policy and namespace are copied from the hub, and the single owner reference names the hub. A nil replica count gives one replica, and a count within int32 range is used as given |
| `HelmRepo.ServiceFor` | pkg/helmrepo/helmrepo_test.go:53-69 | The service's namespace is the hub's namespace, and it has exactly one owner reference, which names the hub (kind, name, namespace) |
| `HelmRepoCases.ServiceNamesHub` | pkg/helmrepo/helmrepo_test.go:54-68 | For hub testName in testNS, the service namespace is testNS and the first owner reference names testName |
| `HelmRepo.ValidateDeployment` | pkg/helmrepo/helmrepo_test.go:164-172 | `changed` holds exactly when at least one of the five watched fields differs from the desired deployment. The corrected deployment carries the desired watched fields and the observed other fields. With no drift it is the observed deployment itself, and for every hub and cache the desired deployment fed back in comes back unchanged with `changed` false |
| `HelmRepo.Reconcile` | pkg/helmrepo/helmrepo_test.go:127-168 | The corrected deployment takes its watched fields from the desired one, keeps every other field of the observed one, and equals the observed one when they are in sync |
| `HelmRepo.Assemble` | pkg/helmrepo/helmrepo_test.go:98-115 | A deployment built from watched fields and other fields gives those parts back, so the two parts describe a deployment completely |
| `HelmRepo.DeployExtensional` | pkg/helmrepo/helmrepo_test.go:167 | Deployments that agree on the watched fields and on all other fields are equal (stands in for deep equality) |
| `HelmRepo.NoDriftNoChurn` | pkg/helmrepo/helmrepo_test.go:95 | For every hub and cache, the desired deployment is in sync with itself and correcting it returns it unchanged (a corollary of `Reconcile`; `ValidateDeployment` states the same for its result) |
| `HelmRepo.UnwatchedChangesIgnored` | pkg/helmrepo/helmrepo_test.go:127-132 | A desired deployment edited only outside the watched fields (its metadata: labels, name, namespace, owner references; or its container name) is no drift, and it comes back unchanged with those edits kept |
| `HelmRepo.CorrectionRestoresDesired` | pkg/helmrepo/helmrepo_test.go:133-162 | A copy of the desired deployment edited only in watched fields is corrected back to exactly the desired deployment. It shows drift exactly when it differs from the desired deployment |
| `HelmRepo.ReconcileConverges` | pkg/helmrepo/helmrepo_test.go:164-172 | After one correction the deployment is in sync, and correcting it again changes nothing |
| `HelmRepo.NilReplicasMeansDefault` | pkg/helmrepo/helmrepo_test.go:73-81 | An unset replica count and an explicit default build identical deployments, so switching between them is not drift |
| `HelmRepo.ToInt32` | pkg/helmrepo/helmrepo_test.go:113-115 | The int-to-int32 conversion is the identity within range and agrees with the input modulo 2^32 |
| `HelmRepo.DigestOverridesTag` | pkg/helmrepo/helmrepo_test.go:89-91 | When the cache holds a digest for the image, the image is the digest form, and it does not change with the version or the tag suffix |
| `HelmRepo.TaggedImageInjective` | pkg/helmrepo/helmrepo_test.go:77-79 | Without a digest, the image reference determines the version (suffix fixed) and the tag suffix (version fixed) |
| `HelmRepo.TagSuffixPartInjective` | pkg/helmrepo/helmrepo_test.go:23 | The tag-suffix part of the image determines the suffix |
| `HelmRepo.VersionUpgradeIsDrift` | pkg/helmrepo/helmrepo_test.go:139-144 | Without a digest, the deployment built for the old version is drift against a hub with a new version, and it is corrected to the new desired deployment |
| `HelmRepo.VersionChangeUnderDigestIsNoDrift` | pkg/helmrepo/helmrepo_test.go:89-91 | With a digest in the cache, changing only the version causes no drift |
| `HelmRepoCases.ValidDeploymentRow` | pkg/helmrepo/helmrepo_test.go:127-132 | Row "Valid Deployment": the desired deployment is in sync and is returned as it is |
| `HelmRepoCases.ModifiedPullSecretRow` | pkg/helmrepo/helmrepo_test.go:133-138 | Row "Modified ImagePullSecret": cleared pull secrets are drift, and the correction is the desired deployment with secret "test" |
| `HelmRepoCases.ModifiedImageRow` | pkg/helmrepo/helmrepo_test.go:139-144 | Row "Modified Image": image "differentImage" is drift, and the correction is the desired deployment |
| `HelmRepoCases.ModifiedPullPolicyRow` | pkg/helmrepo/helmrepo_test.go:145-150 | Row "Modified PullPolicy": policy Never is drift, and the correction is the desired deployment with policy Always |
| `HelmRepoCases.ModifiedNodeSelectorRow` | pkg/helmrepo/helmrepo_test.go:151-156 | Row "Modified NodeSelector": a cleared selector is drift, and the correction is the desired deployment with selector {"test": "test"} |
| `HelmRepoCases.ModifiedReplicaCountRow` | pkg/helmrepo/helmrepo_test.go:157-162 | Row "Modified ReplicaCount": zero replicas is drift, and the correction is the desired deployment with one replica |
| `HelmRepoCases.ValidateDeploymentTable` | pkg/helmrepo/helmrepo_test.go:94-174 | Running `ValidateDeployment` over the six observed deployments of the table gives the desired deployment every time, with `changed` false for the first row and true for the other five |

## Left out

- Kubernetes object machinery: `appsv1.Deployment`, `corev1`, `metav1.ObjectMeta`, `DeepCopy`
  and `GetOwnerReferences` become plain datatypes. `reflect.DeepEqual` becomes datatype equality.
- Fields a real Deployment or Service carries beyond those modelled (ports, volumes, probes,
  label selectors): the model keeps only labels, name, namespace, owner references and the
  container name as the fields the drift check passes through unchanged.
- Nil and empty are not told apart. A nil slice and an empty slice of pull secrets are both `[]`,
  and a nil map and an empty map are both `map[]`. `reflect.DeepEqual` distinguishes them.
- `IngressDomain` and the `Mongo` sub-spec: neither affects any output the tests check. The
  cache's ingress domain is carried but unused, and `Mongo` is not modelled.
- Whether `ValidateDeployment` mutates its argument, and pointer aliasing: Dafny datatypes are
  values, so the caller's deployment can never be changed. For the same reason the copy of the
  node-selector map needs no separate proof.
- The reconciliation loop, the API client that applies the corrected deployment, owner-reference
  garbage collection and the Go test runner (`t.Run`, `t.Errorf`): they lie outside the component.
- An observed deployment with no container, or with more than one: `Deploy` holds exactly one
  container, because the component always reads the first one. Neither kind of deployment can be
  represented, so the model says nothing about how the check treats extra containers.
- `HelmRepo.ValidateDeployment`: an observed nil replica pointer (`replicas == None`) always counts
  as drift and is overwritten with the desired count, even when the hub's count is also unset and
  the cluster would default both to one. Treating a nil observed pointer as the default count of one would make that case no drift; the
  tests do not decide it, and the model takes the strict reading.
- `HelmRepo.TaggedImage`, `HelmRepo.DigestImage`: the exact image-reference format and the
  component name do not appear in the test file. They are fixed as constants. The concrete
  scenarios about a substituted image need only that the desired image differs from
  "differentImage".
