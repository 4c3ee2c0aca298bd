# jupyter-k8s in Dafny

A model of the Kubernetes operator for Jupyter workspaces and of its authentication service, with
proofs about four parts of it.

**Signing keys and sessions.** A rotator adds a timestamped key to a Secret and prunes the oldest
(`Rotator`); every pod learns of the Secret later through a watch and signs only with keys it has held
for a cool-off (`Signer`); any pod validates any token by its `kid` (section 4.1.4 of RFC 7515).
`RotationProtocol` is the whole as a state machine over one clock, with any interleaving of rotations,
deliveries, pod starts and stops, signatures and time. It proves that no unexpired token is turned away
when enough keys are kept; `RotationLimits` builds, for arbitrary parameters, the runs that show the
condition is exact. `RefreshLineage` bounds everything that can grow out of one login.

**Integrations.** A template is rendered once against live resources by a provider that records what it
serves; later builds render it from the frozen record. `Templates`, `PodModifications` and `Capture`
prove that replay equals capture, `TemplateMeaning` and `CaptureMeaning` what a template says and what a
capture reads, independently of how they are computed, `Validation` exactly which templates a capture can never fail on for a
static reason and which of them admission looks at, `CanonicalInput` and `Freeze` that a record keeps its
provenance over every run of reconciles and is replaced exactly when it is out of date.
`EnvMerge` and `PodBuild` build the pod in layers on Go slices that share an array with the workspace;
`PodLayers` is what the finished pod consists of.

**Lifecycle.** `Backoff` and `StartupProbe` are the access startup probe, `Conditions` the condition merge
and the seven status updates, `Lifecycle` the stopping and deleting passes and `Running` the pass towards
Running, against a cluster that may fail any call and lose objects between any two calls; `AccessTracking`
is about the access resources such a pass can lose track of, `LifecycleRuns` about whole lives of a workspace,
and `Availability` about when a workspace is reported as running.

**Admission and parsers.** `Admission` is the validation of a workspace against its template across
updates, and templates that admit their own defaults; `Glob` the translation of wildcard patterns to
regular expressions; `Groups` the printing and parsing of group lists, on bytes.

Code that changes things step by step is a method over a class, an array or local variables, proved
against a specification; the properties are lemmas about that specification. API answers, clocks and
random keys are parameters.

Where the code and its own comments disagree, or a property one would expect fails, the code is modelled:

- The comment at `internal/jwt/handler.go:94` promises a last refresh beyond the horizon. The code returns
  an error there and the old cookie stays (`RefreshLineage.BeyondHorizon`).
- `deriveNumberOfKeys` (`cmd/rotator/main.go:143-148`) is meant to keep the previous key available; its
  number is enough only if the rounding leaves room for cool-off and watch lag (`RotationLimits.DerivedIsEnoughIff`).
- The "no change" test of `updateStatus` (`internal/controller/status_manager.go:44`) compares a struct
  with a pointer and never holds, so the status is always written.
- A first stop pass that finds Deployment and Service alive reports an error the code calls unexpected,
  because both are returned as read before the delete (`Lifecycle.FirstStopErrs`).
- `UpdateDeletingStatus` says it leaves the other conditions unchanged; it sets all five.
- A restart whose status write fails leaves Stopped shown over a live Deployment, and an access resource
  created just before such a failure is not tracked (`LifecycleRuns.NeverMisleadsIff`,
  `AccessTracking.NeverForgetsIff`).
- A workspace update that only turns a nil header list into an empty one is no change to the comparison
  of specs but is one to the idle-shutdown lock (`Admission.LockIsLostIff`).

## Model

| member | source | states |
|---|---|---|
| Text.PrintParse | internal/jwt/keys.go:26-43 | Printing an int64 in decimal and parsing it back gives the number. |
| Text.ParsePrint | internal/jwt/keys.go:26-43 | A parsed text is printed back exactly when it was the canonical spelling. |
| Text.EqualLengthOrder | internal/jwt/standard_signer.go:58-75 | For digit strings of equal length the string order is the numeric order. |
| Keys.BuildParseRoundTrip | internal/jwt/keys.go:26-43 | Every int64 timestamp survives being built into a key name and parsed back. |
| Keys.ParseBuildRoundTrip | internal/jwt/keys.go:26-43 | A parsed key name is rebuilt exactly when its digits were canonical. |
| Keys.ParseSigningKeysFromSecret | internal/jwt/keys.go:47-80 | Whatever the order of the map: an error exactly when there is no data, no key, or one prefixed name that does not parse; otherwise all prefixed entries under their kid, and as latest kid the one of greatest positive timestamp. |
| Keys.ParsesWhenWellFormed | internal/jwt/keys.go:47-80 | A secret whose prefixed names all parse, one of them positive, is accepted with all its keys and a latest kid among them. |
| Rotator.SecretStore.RotateSecret | internal/rotator/rotator.go:42-136 | Succeeds exactly when at least one key is to be kept, the read, the random source and the write succeed and the new name is free; then the secret is rotated, otherwise it is unchanged. |
| Rotator.Rotate | internal/rotator/rotator.go:57-123 | On the data read: the new key is added, exactly min(old + 1, N) well-formed keys are left, and no deleted key is newer than a kept one. |
| Rotator.CollectKeys | internal/rotator/rotator.go:61-80 | Lists every well-formed name once, with its timestamp, and skips all others. |
| Rotator.SortLists | internal/rotator/rotator.go:82-85 | Sorting keeps the listed names and timestamps, each once. |
| Rotator.AddAndPrune | internal/rotator/rotator.go:103-123 | Deleting from the front of the sorted list deletes the oldest keys and no others. |
| Rotator.NewestIsKept | internal/rotator/rotator.go:95-123 | A rotation keeps the key it adds whenever that key is the newest. |
| Rotator.OthersUntouched | internal/rotator/rotator.go:61-82 | Names without the prefix, or whose digits do not parse, are never touched. |
| Rotator.DeriveNumberOfKeys | cmd/rotator/main.go:143-148 | The derived number of keys is the least n with (n - 1) * interval >= ttl. |
| Signer.StandardSigner.UpdateKeys | internal/jwt/standard_signer.go:218-248 | Refuses a latest kid it is not given; otherwise takes over the keys, and a key already held keeps the time it was first seen. |
| Signer.StandardSigner.GetLatestKidAndKeyWithCoolOff | internal/jwt/standard_signer.go:54-76 | Finds the greatest kid, in string order, among those past their cool-off, whatever the order of the map; none if there is none. |
| Signer.StandardSigner.GenerateTokenWithIssuedAt | internal/jwt/standard_signer.go:112-152 | Signs with the usable key and the claims asked for; refuses exactly when no key is past its cool-off. |
| Signer.StandardSigner.LookupKey | internal/jwt/standard_signer.go:160-184 | The held key of a kid, none for a missing or unknown one. |
| Signer.StandardSigner.ValidateToken | internal/jwt/standard_signer.go:156-214 | Accepts exactly the tokens whose kid is held, whose key is the held one, which are neither past expiry nor before their time by more than the leeway, and whose issuer and audience match; a wrong key is an invalid signature, an expired token is reported as such before any other error in the claims, all else is an invalid token. |
| Signer.UsableUnique | internal/jwt/standard_signer.go:54-76 | The usable key is unique. |
| KeyHistory.LatestIsGreatest | internal/jwt/standard_signer.go:58-75 | For kids of one length the greatest in string order is the one of greatest timestamp. |
| KeyHistory.OrdersAgreeIff | internal/jwt/standard_signer.go:58-75 | For any two canonical kids string order and numeric order agree exactly when they have one length or the shorter is not greater than the beginning of the longer. |
| KeyHistory.LengthsMatter | internal/jwt/standard_signer.go:58-75 | An instance in which they do not: 10 is later than 9, yet "9" is the greater string, so the greatest kid is not the latest. |
| KeyHistory.RotationOfKeys | internal/rotator/rotator.go:61-123 | A rotation of the secret is the same rotation of the keys the signers see. |
| KeyHistory.NewestSurvives | internal/rotator/rotator.go:95-123 | Over any number of rotations, the newest key of a version survives the next N - 1. |
| KeyHistory.NewerKeysStay | internal/rotator/rotator.go:95-123 | While a version still has an older key, it has every newer one there ever was. |
| KeyHistory.KidNamesOneKey | internal/rotator/rotator.go:42-136 | A kid is never reused for another key. |
| RotationProtocol.NextInv | internal/jwt/standard_signer.go:54-248 | Every step of the protocol (rotate, deliver to a pod, start or stop a pod, sign, let time pass) keeps the invariant on histories, pods and issued tokens. |
| RotationProtocol.ReachableInv | internal/jwt/standard_signer.go:54-248 | Every state reachable by any interleaving satisfies it. |
| RotationProtocol.SignedWithNewest | internal/jwt/standard_signer.go:54-76 | A pod always signs with a key that was the newest of the version that added it. |
| RotationProtocol.TokensAreAccepted | internal/jwt/standard_signer.go:156-214 | In every reachable state every running pod accepts every token younger than an explicit bound on N, interval, cool-off and watch lag. |
| RotationProtocol.SufficientIsEnough | internal/jwt/standard_signer.go:54-248 | With (N - 1) * interval >= ttl + cool-off + lag - 1 tick and lag below the cool-off, no unexpired token is ever turned away in any run. |
| RotationProtocol.DerivedNumberOfKeys | cmd/rotator/main.go:143-148 | With the derived number of keys a token is accepted everywhere for its lifetime less the cool-off and the lag. |
| RotationLimits.SufficientIsExact | internal/jwt/standard_signer.go:54-248 | The condition is exact: no run turns an unexpired token away if and only if it holds. |
| RotationLimits.TooFewKeys | internal/rotator/rotator.go:95-123 | With fewer keys a run is built, for arbitrary parameters, in which a token outlives its key. |
| RotationLimits.SlowWatch | internal/jwt/standard_signer.go:54-76 | With a watch no faster than the cool-off a run is built in which a pod is shown a key it has not heard of. |
| RotationLimits.DerivedIsEnoughIff | cmd/rotator/main.go:143-148 | The derived number of keys keeps every token valid for its lifetime exactly when the rounding leaves room for the cool-off and the lag. |
| RotationLimits.DerivedFallsShort | cmd/rotator/main.go:143-148 | When the interval divides the lifetime the derived number of keys is too small for whole lifetimes. |
| RefreshLineage.ResponseWriter.HandleVerify | internal/authmiddleware/serverroute_verify.go:16-120 | Exactly which requests get 400, 401, 403 and 200, exactly when the cookie is cleared, set or left alone, and every claim of a cookie that is set. |
| RefreshLineage.LiveIsValidated | internal/jwt/standard_signer.go:156-214 | A token is live exactly when a signer that holds its key accepts it. |
| RefreshLineage.DerivedBounded | internal/authmiddleware/serverroute_verify.go:74-117 | One request keeps the bounds: a skip-refresh token has no descendant, and a refreshable one is handed out only after an allowed review within the horizon. |
| RefreshLineage.LineageBounded | internal/jwt/handler.go:62-110 | In the whole tree of one login: identity, path, domain and type never change, refreshable tokens keep the login time and expire before login + horizon + expiration, skip-refresh ones before login + horizon + 2 * expiration. |
| RefreshLineage.LineageReviewed | internal/authmiddleware/serverroute_verify.go:74-117 | Only the last token of a branch can be a skip-refresh one, and every refreshable descendant follows an allowed review. |
| RefreshLineage.SessionEnds | internal/authmiddleware/config.go:397-406 | Two lifetimes and the leeway past the horizon no token of the login is accepted. |
| RefreshLineage.BeyondHorizon | internal/jwt/handler.go:62-110 | Beyond the horizon a new cookie is set exactly when the access review could not be made and a key is usable. |
| Templates.RenderAgrees | internal/controller/integration_template_resolver.go:143-165 | A provider that serves every value a rendering read gives the same rendering, conditionals on resource values included. |
| Templates.ResolveAllAgrees | internal/controller/integration_template_resolver.go:201-335 | The same for any list of fields. |
| Templates.ResolveAllAppend | internal/controller/integration_template_resolver.go:201-335 | Resolving two lists of fields in turn stops at the first failure and joins outputs and reads. |
| TemplateMeaning.ServeIsMeaning | internal/controller/integration_template_resolver.go:83-124 | A live provider serves what the path finds, unless it is empty; a frozen one what is recorded under handle and path. |
| TemplateMeaning.EvalIsMeaning | internal/controller/integration_template_resolver.go:125-165 | A pipeline evaluates exactly to the text it stands for: name, namespace, parameter, or what the provider has for a resource and path. |
| TemplateMeaning.PlainRenders | internal/controller/integration_template_resolver.go:143-165 | A template of text only renders to its texts in order. |
| TemplateMeaning.ExpandsRenders | internal/controller/integration_template_resolver.go:143-165 | A template renders to the texts it expands to: every pipeline replaced by what it stands for, every conditional by its branch. |
| TemplateMeaning.RenderExpands | internal/controller/integration_template_resolver.go:143-165 | Whenever rendering succeeds there is such an expansion, and the output is its texts. |
| TemplateMeaning.ExpansionIsPlain | internal/controller/integration_template_resolver.go:143-165 | Replacing a template by its expansion leaves the output, for any provider and any data. |
| TemplateMeaning.ResolveIsMeaning | internal/controller/integration_template_resolver.go:143-165 | A field resolves exactly to what it says. |
| TemplateMeaning.ResolveAllIsMeaning | internal/controller/integration_template_resolver.go:201-335 | A list of fields resolves exactly to what each of them says. |
| TemplateMeaning.RenderDependsOn | internal/controller/integration_template_resolver.go:125-165 | Output, failure and reads do not depend on a name, namespace or parameter the template does not mention. |
| TemplateMeaning.RenderFails | internal/controller/integration_template_resolver.go:125-165 | A failure is a field that does not exist, a parameter that is missing, or the provider's. |
| PodModifications.Resolver.Value | internal/controller/integration_template_resolver.go:83-124 | A live lookup is recorded under its key, a frozen one is not. |
| PodModifications.Resolver.ResolveTemplateExpression | internal/controller/integration_template_resolver.go:143-165 | Succeeds exactly with what the field says, and records exactly the values it read. |
| PodModifications.Resolver.ResolveVolumeMounts | internal/controller/integration_template_resolver.go:306-335 | Resolves the three fields of each mount in order and keeps the rest. |
| PodModifications.Resolver.ResolveContainerFields | internal/controller/integration_template_resolver.go:248-301 | Resolves every templated field of a container in order and keeps the rest. |
| PodModifications.Resolver.ResolvePodModifications | internal/controller/integration_template_resolver.go:201-244 | The first failure, or the same shape around the outputs, with every value read recorded. |
| PodModifications.ResolvesUnique | internal/controller/integration_template_resolver.go:201-244 | The shape and the outputs determine the resolved pod modifications. |
| Capture.FetchReferencedResources | internal/controller/resource_manager_integration.go:182-209 | One object for every reference, or the first failure. |
| Capture.CaptureIntegrationValues | internal/controller/resource_manager_integration.go:143-178 | The recorded values of a rendering of pod modifications and probe command, or the first failure. |
| CaptureMeaning.FetchesNamed | internal/controller/integration_template_resolver.go:174-196 | A reference fetches the object of the name its template says, in the workspace's own namespace, and fails exactly when there is no such name or object. |
| CaptureMeaning.FetchSucceedsIff | internal/controller/resource_manager_integration.go:182-209 | The fetch succeeds exactly when every reference names an object. |
| CaptureMeaning.FetchIsLookup | internal/controller/resource_manager_integration.go:182-209 | A handle stands for the object of its last reference. |
| CaptureMeaning.CaptureSucceedsIff | internal/controller/resource_manager_integration.go:143-178 | A capture succeeds exactly when there is nothing to render, or every object is there and every field of pod and probe says something. |
| CaptureMeaning.CapturedIsServed | internal/controller/integration_template_resolver.go:83-102 | Every captured value is what a path finds in a fetched object, under the key of handle and path. |
| Capture.KeysDistinctIff | internal/controller/integration_template_resolver.go:53-55 | Capture keys tell (handle, path) pairs apart exactly when no handle extends another by a bar. |
| Capture.ReplayEqualsCapture | internal/controller/resource_manager_integration.go:143-178 | Pod modifications and probe command replay, from the captured values or any larger set agreeing with them, to what the capture rendered. |
| Capture.ReplaySamePod | internal/controller/integration_helpers.go:57-74 | The replayed pod modifications themselves are the captured ones. |
| Capture.AdmittedHandlesAreGood | api/v1alpha1/workspaceintegrationtemplate_types.go:18-23 | The pattern the API imposes on handles is what keeps bars out of them. |
| Capture.ClashBreaksReplay | internal/controller/integration_template_resolver.go:53-55 | That pattern is needed: for handles it would not admit, extending one another by a bar, replay breaks whatever path is read. |
| Validation.ValidateIntegrationTemplate | internal/webhook/v1alpha1/integration_template_validation.go:52-121 | Accepts exactly when every field the resolver renders passes the rendering check against the declared names and handles. |
| Validation.ValidateContainerTemplates | internal/webhook/v1alpha1/integration_template_validation.go:128-151 | The same for the fields of one container. |
| Validation.ValidateVolumeMountTemplates | internal/webhook/v1alpha1/integration_template_validation.go:156-170 | The same for mounts. |
| Validation.ValidateWorkspaceIntegrationParameters | internal/webhook/v1alpha1/integration_template_ref_validator.go:158-171 | Accepts exactly when every declared parameter is supplied and not blank. |
| Validation.CheckIsScope | internal/webhook/v1alpha1/integration_template_validation.go:205-233 | On straight-line templates with constant arguments the rendering check is exactly a scope check. |
| Validation.ScopedNeverMisses | internal/webhook/v1alpha1/integration_template_validation.go:205-233 | A well-scoped template, conditionals included, can fail only on what a resource contains. |
| Validation.RenderedIsScoped | internal/webhook/v1alpha1/integration_template_validation.go:205-233 | Nothing that renders is turned away. |
| Validation.NeverStaticIff | internal/webhook/v1alpha1/integration_template_validation.go:205-233 | Conditionals included: no capture, whatever the parameters and resources, fails for a static reason exactly when every expression on the branches a capture takes is well scoped. |
| Validation.CheckIsChecked | internal/webhook/v1alpha1/integration_template_validation.go:205-233 | What admission looks at, conditionals included: exactly the branches taken with empty values. |
| Validation.UntakenBranch | internal/webhook/v1alpha1/integration_template_validation.go:205-233 | So for every declared parameter there is a template that admission passes and no capture with that parameter can render. |
| Validation.ScopedPasses | internal/webhook/v1alpha1/integration_template_validation.go:205-233 | A well-scoped template, conditionals included, passes the rendering check. |
| Validation.ScopedIsAdmitted | internal/webhook/v1alpha1/integration_template_validation.go:52-233 | Templates that refer only to what is declared, in every branch, are admitted; of straight-line ones only those. |
| Validation.TakenIsSound | internal/webhook/v1alpha1/integration_template_validation.go:52-233 | A whole capture of a template well scoped on the branches capture takes, for an admitted reference, never fails for an undeclared parameter or handle, an unknown field, a syntax error or a malformed JSONPath. |
| Validation.ScopedIsSound | internal/webhook/v1alpha1/integration_template_validation.go:52-233 | The same for templates scoped in every branch, of which nothing about the workspace names need be known. |
| Validation.AdmissionIsSound | internal/webhook/v1alpha1/integration_template_validation.go:52-233 | For straight-line templates with constant arguments being admitted is enough for that. |
| CanonicalInput.Token | internal/controller/resource_manager_integration.go:225-242 | Feeds the token of the reference to the hash, whatever the order of the map. |
| CanonicalInput.TokenUnique | internal/controller/resource_manager_integration.go:225-242 | A reference has one token. |
| CanonicalInput.TokenIdentifies | internal/controller/resource_manager_integration.go:225-242 | On NUL-free references tokens are equal exactly when namespace, name and parameter map are. |
| CanonicalInput.OrderIrrelevant | api/v1alpha1/workspace_types.go:293-299 | The order in which parameters are listed does not matter. |
| CanonicalInput.NulCollides | internal/controller/resource_manager_integration.go:225-242 | With a NUL in a value two different references can share a token. |
| Freeze.VersionIdentifies | internal/controller/resource_manager_integration.go:246-248 | Version texts are equal exactly when UID and generation are. |
| Freeze.ReconcileOne | internal/controller/resource_manager_integration.go:72-124 | Reports no error exactly when the record is up to date with inputs and template afterwards, which is when it was before or the capture succeeds; only an out-of-date record is replaced, by that capture. |
| Freeze.Workspace.ReconcileIntegrations | internal/controller/resource_manager_integration.go:58-138 | Replaces the records by the kept and recaptured ones of the current references, returns the templates read, and reports no error exactly when every reference has a record of its current inputs and template. |
| Freeze.FindReconciled | internal/controller/resource_manager_integration.go:58-138 | Each reference finds its own next record; a name no longer referenced finds none. |
| Freeze.TemplateHome | internal/controller/integration_helpers.go:79-97 | A reference means the template of its own namespace, or of the workspace's if it names none. |
| Freeze.DataSays | internal/controller/integration_helpers.go:41-49 | In a template the workspace's fields stand for its name and namespace, and a parameter for the last value the reference gives it. |
| Freeze.ReplacedExactly | internal/controller/resource_manager_integration.go:214-220 | Exactly the records whose hash or version differs are replaced, and only by a capture that succeeds. |
| Freeze.HealthyIsUpToDate | internal/controller/resource_manager_integration.go:72-124 | A reference reconciles without error exactly when its record then carries its current hash and version. |
| Freeze.StaleIsReplaced | internal/controller/resource_manager_integration.go:100-124 | In every run, a stale record whose template can be read and captured becomes the record of that capture. |
| Freeze.HealthyStep | internal/controller/resource_manager_integration.go:58-138 | In every run, a step reconciles a reference without error exactly when it leaves its record matching the inputs of that step. |
| Freeze.Provenance | internal/controller/resource_manager_integration.go:58-138 | In every run, hash, version and values of a record come from one single capture. |
| Freeze.RemovedLeaveNothing | internal/controller/resource_manager_integration.go:58-138 | In every run, no record survives the removal of its reference. |
| Freeze.FreezeHolds | internal/controller/resource_manager_integration.go:58-138 | While inputs and template version stay as captured, nothing that happens to resources or templates alters the record. |
| Freeze.OverlayIsCapture | internal/controller/deployment_builder_integration.go:80-105 | At any point of any run the overlay built from a matching record is the one its capture rendered from the live resources. |
| Freeze.HealthyBuild | internal/controller/deployment_builder_integration.go:80-105 | After a step without error the overlay that is built is what a capture of the live resources rendered. |
| EnvMerge.SetEnv | internal/controller/deployment_builder_integration.go:180-188 | On a slice over a shared array: the entry is overwritten in place, or appended into spare capacity or a new array. |
| EnvMerge.MergeInto | internal/controller/deployment_builder_access.go:85-132 | Merging into a slice keeps track of what has been written into the array it started from. |
| EnvMerge.MergeBase | internal/controller/deployment_builder_integration.go:180-188 | Entries of the base list keep their places; each first entry of a name becomes the outcome of all operations on it. |
| EnvMerge.MergeAdded | internal/controller/deployment_builder_integration.go:180-188 | A name the base lacks is added once, with the last value asked for. |
| EnvMerge.MergeDistinct | internal/controller/deployment_builder_access.go:85-132 | Merging introduces no duplicate name. |
| EnvMerge.Layers | internal/controller/deployment_builder_access.go:85-132 | The strategy's value wins, else the last integration's, else the workspace's entry; and exactly when an entry ends up with both a value and a source. |
| EnvMerge.MergeAgain | internal/controller/deployment_builder.go:262-262 | Merging again over entries the first merge has overwritten changes nothing. |
| PodBuild.PodSpec.ApplyPodModifications | internal/controller/deployment_builder_integration.go:112-165 | Fails exactly on a name collision, and then leaves the pod spec and the workspace as they were; otherwise applies all of it. |
| PodBuild.PodSpec.ApplyAccessStrategy | internal/controller/deployment_builder_access.go:136-263 | Applies the strategy without a collision check; fails exactly when a value template does. |
| PodBuild.Clashes | internal/controller/deployment_builder_integration.go:112-165 | Finds a collision exactly when a new name is taken or given twice. |
| PodBuild.BuildWorkspaceDeployment | internal/controller/deployment_builder.go:62-88 | Builds base, integrations and strategy in turn, writing into the workspace's env slice some of the operations. |
| PodBuild.EnvOfBuild | internal/controller/deployment_builder.go:62-88 | The env of a build is one merge of all operations; nothing else of it depends on the env it starts from. |
| PodBuild.BuildsAgree | internal/controller/resource_manager.go:211-284 | The second build of a reconcile agrees with the first, although the first wrote into the workspace's env. |
| PodBuild.LayeredEnv | internal/controller/deployment_builder_access.go:85-132 | In a finished pod every env name has the value of its highest layer, no name twice unless the workspace had it twice, and exactly when a value stands beside a ValueFrom. |
| PodBuild.IntegrationsKeepNames | internal/controller/deployment_builder_integration.go:112-165 | Integrations never give a pod a duplicate container or volume name. |
| PodBuild.StrategyKeepsNamesIff | internal/controller/deployment_builder_access.go:163-263 | A strategy keeps names distinct exactly when its own names happen not to clash. |
| PodBuild.StrategyClashes | internal/controller/deployment_builder_access.go:163-263 | On any pod, a strategy that adds a container of the primary name gives a duplicate. |
| PodLayers.IntegrationsAddUp | internal/controller/deployment_builder_integration.go:39-165 | Integrations apply one by one exactly when all render and what they ask for, taken together, does not clash; the pod then has all of it in order, and shares processes if any asks for it. |
| PodLayers.FinishedPod | internal/controller/deployment_builder.go:62-88 | Exactly which builds fail in replay or fatally; a finished pod has containers, init containers, volumes and mounts of base, integrations and strategy, in that order. |
| PodBuild.Deployment.EnsureUpToDate | internal/controller/resource_manager.go:211-284 | An overlay that cannot be built leaves the Deployment unchanged without an error; otherwise the Deployment becomes the desired pod unless the write fails. |
| Glob.CompiledTokens | internal/webhook/v1alpha1/service_account_validator.go:39-49 | Quoting and the two replacements turn each character of a pattern into one token, for every pattern. |
| Glob.TokensParse | internal/webhook/v1alpha1/service_account_validator.go:39-49 | The compiled text parses, to one atom for each character. |
| Glob.MatchIsDenotes | internal/webhook/v1alpha1/service_account_validator.go:39-49 | Matching the atoms is matching the pattern. |
| Glob.GlobPreserved | internal/webhook/v1alpha1/service_account_validator.go:39-49 | The compiled expression accepts exactly what the pattern denotes when wildcards stand for anything but a newline. |
| Glob.GlobOnNames | internal/webhook/v1alpha1/service_account_validator.go:39-49 | On names without newlines wildcards stand for anything. |
| Glob.GlobExactIff | internal/webhook/v1alpha1/service_account_validator.go:39-49 | All patterns mean what they should on a name exactly when it holds no newline. |
| Groups.JoinGroups | internal/authmiddleware/utils.go:78-92 | Prints the list with commas, quoting groups that hold a comma or a space. |
| Groups.SplitGroups | internal/authmiddleware/utils.go:11-65 | The scan with its jumps over quoted sections, for every text. |
| Groups.RoundTripIff | internal/authmiddleware/utils.go:11-92 | For every list: splitting what was joined gives it back exactly when no group is empty and the list is safe, a condition on quotes and non-ASCII bytes. |
| Groups.RoundTrip | internal/authmiddleware/utils.go:11-92 | Non-empty ASCII groups without quotes survive, commas and spaces inside included. |
| Groups.SplitCounts | internal/authmiddleware/utils.go:11-65 | Along the scan no quote is lost but two for each quoted section, and only quoted sections give empty tokens or tokens with a separator. |
| Groups.EmptyGroupsAreLost | internal/authmiddleware/utils.go:11-92 | No list that holds an empty group comes back. |
| Backoff.ProbeRetrySeconds | internal/controller/state_machine_access.go:227-240 | The loop, in 32-bit arithmetic, returns the delay function. |
| Backoff.DoubledFormula | internal/controller/state_machine_access.go:227-240 | For periods below 2^30 the doubling is min(period * 2^k, 302). |
| Backoff.DelayFormula | internal/controller/state_machine_access.go:227-240 | The delay is the period up to max(threshold - 10, 0) failures and min(period * 2^k, 302) after k more. |
| Backoff.FormulaIff | internal/controller/state_machine_access.go:227-240 | That holds for every k exactly when the period is below 2^30. |
| Backoff.NeverShrinksIff | internal/controller/state_machine_access.go:227-240 | Delays never shrink exactly when the period is at most 302 or every retry is a backoff retry. |
| Backoff.GiveUpTime | internal/controller/state_machine_access.go:203-240 | All delays up to the threshold T sum to at most max(T - 10, 0) * period + min(T - 1, 9) * 302. |
| StartupProbe.ProbeStatus.ProbeAccessStartup | internal/controller/state_machine_access.go:113-216 | One probe cycle: verdict, new status and whether the endpoint was asked. |
| StartupProbe.AskedIff | internal/controller/state_machine_access.go:113-180 | The endpoint is asked exactly when this version has neither passed nor used up its failures, is not in its initial delay and has no deadline ahead. |
| StartupProbe.AnswerCounts | internal/controller/state_machine_access.go:180-216 | Success clears counter and deadline, a failure counts one and sets the next deadline or ends the probing at the threshold, an error leaves no verdict. |
| StartupProbe.SilentCycle | internal/controller/state_machine_access.go:113-178 | Exactly which verdict a cycle without a probe gives, and that it never counts. |
| StartupProbe.ProbeStatus.Forget | internal/controller/state_machine_access.go:73-89 | Stopping or detaching clears all the probe owns. |
| StartupProbe.InvHolds | internal/controller/state_machine_access.go:113-221 | In every run, rejected writes included, the counter is between 0 and the threshold and equals the recorded failed probes since the last reset; success clears counter and deadline and is backed by a probe that succeeded. |
| StartupProbe.AskedInTime | internal/controller/state_machine_access.go:113-216 | In every run, without a reset, no endpoint is asked once the threshold is reached or before the stored deadline. |
| StartupProbe.ProbesAreSpaced | internal/controller/state_machine_access.go:113-251 | In every run, after a failed probe the endpoint is asked again no sooner than the backoff delay of the failures counted. |
| StartupProbe.FirstProbeWaits | internal/controller/state_machine_access.go:152-168 | In every run, the first probe of a version comes no sooner than its initial delay after the first cycle. |
| StartupProbe.GivesUpIff | internal/controller/state_machine_access.go:144-201 | In every run, a recorded cycle gives up exactly when the failed probes since the last reset have used up the threshold and none has succeeded. |
| StartupProbe.AvailableAfterSuccess | internal/controller/state_machine.go:284-341 | In every run, rejected writes included, Available is written under a probed strategy version only if a probe of that version has succeeded since the last stop that was written. |
| StartupProbe.StopCountsIff | internal/controller/state_machine_access.go:57-89 | A stop or a detachment makes a new success necessary exactly when its status is written. |
| Conditions.FindCondition | internal/controller/conditions_utils.go:18-26 | The first condition of a type, or none. |
| Conditions.MergeConditionsIfChanged | internal/controller/conditions_utils.go:30-94 | Empty exactly when the list already says all that is requested; otherwise the other types in their order, then the requested conditions. |
| Conditions.RequestedAreSet | internal/controller/conditions_utils.go:30-94 | After merge and write every requested type has the requested status, reason and message, also when the merge reports no change. |
| Conditions.OthersAreKept | internal/controller/conditions_utils.go:30-94 | Every other type is left alone, transition time included. |
| Conditions.MergeAgain | internal/controller/conditions_utils.go:30-94 | Asking again for what was written changes nothing. |
| Conditions.Workspace.Load | internal/controller/workspace_controller.go:115-124 | A reconcile starts from what the API server holds. |
| Conditions.Workspace.UpdateStatus | internal/controller/status_manager.go:32-54 | Overwrites the conditions unless the merge was empty, and always writes. |
| Conditions.Workspace.UpdateStartingStatus | internal/controller/status_manager.go:74-152 | Refused, without any effect, exactly when all is ready; otherwise merges and writes its conditions. |
| Conditions.Workspace.UpdateErrorStatus | internal/controller/status_manager.go:155-170 | Merges and writes Degraded. |
| Conditions.Workspace.UpdatePermanentDegradedRunningStatus | internal/controller/status_manager.go:175-193 | Merges and writes its five conditions. |
| Conditions.Workspace.UpdateRunningStatus | internal/controller/status_manager.go:200-254 | Merges and writes its five conditions. |
| Conditions.Workspace.UpdateStoppingStatus | internal/controller/status_manager.go:264-343 | Refused, without any effect, exactly when all has stopped; otherwise merges and writes its conditions. |
| Conditions.Workspace.UpdateStoppedStatus | internal/controller/status_manager.go:346-416 | Merges and writes its conditions and clears the object names. |
| Conditions.Workspace.UpdateDeletingStatus | internal/controller/status_manager.go:420-438 | Merges and writes its conditions and clears the object names. |
| Conditions.RunsKeepGood | internal/controller/status_manager.go:74-438 | In every run of updates, rejected writes and reloads, in memory and at the API server, types are unique and at most one of Available, Progressing, Stopped and Deleting is true. |
| Conditions.UpdateShows | internal/controller/status_manager.go:74-438 | From any status, an update gives each type it names what it asks for and leaves the others. |
| Conditions.UpdateSetsPhase | internal/controller/status_manager.go:74-438 | After any update but an error report exactly its own phase is true, and Degraded is true exactly for trouble. |
| Conditions.TroubleTold | internal/controller/status_manager.go:155-193 | Trouble is told with the reason and message it is reported with. |
| Conditions.WaitingTold | internal/controller/status_manager.go:74-343 | A start or stop under way names the one part it waits for, if it is only one. |
| Conditions.NamesCleared | internal/controller/status_manager.go:346-438 | A workspace that has stopped or is being deleted names no objects; other updates keep the names. |
| Conditions.PreemptionTold | internal/controller/status_manager.go:346-416 | A stopped workspace says that it was preempted exactly when it was. |
| Conditions.ErrorKeepsPhase | internal/controller/status_manager.go:155-170 | An error report never moves a workspace to another phase. |
| Conditions.UpdateAgain | internal/controller/status_manager.go:74-438 | The same update again is quiet, transition times included. |
| Lifecycle.Reconciler.EnsureObjectDeleted | internal/controller/resource_manager.go:362-409 | Goes well exactly when the answers to its calls do; the object, if it was there, is then terminating, and is returned as read before its delete. |
| Lifecycle.DeleteByAnswers | internal/controller/resource_manager.go:362-409 | From the cluster's answers alone: exactly when a delete goes well, that the object is then terminating and not gone, and what is returned. |
| Lifecycle.Reconciler.EnsureAccessResourceDeleted | internal/controller/resource_manager_access.go:311-348 | Removed exactly when the object is not found or its delete is accepted. |
| Lifecycle.AccessGoneByAnswers | internal/controller/resource_manager_access.go:311-348 | The same for an access resource, which may go between read and delete. |
| Lifecycle.Reconciler.EnsureAccessResourcesDeleted | internal/controller/resource_manager_access.go:351-379 | Empties the tracked list, or leaves it as it is and fails. |
| Lifecycle.Reconciler.ReconcileDesiredStoppedStatus | internal/controller/state_machine.go:103-213 | One stop pass against a cluster that may fail any call and lose objects between any two. |
| Lifecycle.Reconciler.AreAllResourcesDeleted | internal/controller/resource_manager.go:511-536 | True exactly when three reads find nothing and no access resource is tracked. |
| Lifecycle.Reconciler.CleanupResources | internal/controller/resource_manager.go:472-508 | Deletes access resources, Deployment, Service and claim in turn; an access error does not end the pass. |
| Lifecycle.Reconciler.ReconcileDeletion | internal/controller/state_machine.go:543-580 | One deletion pass. |
| Lifecycle.StopIsSafe | internal/controller/state_machine.go:103-213 | Whatever fails: a stop pass creates nothing, and writes Stopped only when Deployment and Service are missing or terminating, the tracked list is empty and nothing it tracked is alive. |
| Lifecycle.OnlyStopShows | internal/controller/status_manager.go:74-438 | Only the update of a finished stop turns Stopped to true. |
| Lifecycle.FirstStopErrs | internal/controller/state_machine.go:203-213 | A first pass that finds both objects alive, undisturbed, ends in the error branch. |
| Lifecycle.StopResult | internal/controller/state_machine.go:150-213 | Without errors a stop pass is done when it read neither object alive, waits and names the one it read alive, and reports an error when it read both. |
| Lifecycle.OrderlyStop | internal/controller/state_machine.go:103-213 | A stop pass meets no error when no call fails and no live object goes of itself. |
| Lifecycle.StopsInTwo | internal/controller/state_machine.go:103-213 | Two passes in which no call fails and no live object goes of itself stop a workspace, whatever happens to its objects between them. |
| Lifecycle.StopTracked | internal/controller/resource_manager_access.go:351-379 | A stop pass gives up the tracked list only when nothing on it is alive. |
| LifecycleRuns.RunsStopTruly | internal/controller/state_machine.go:103-213 | In every run, a step that turns Stopped to true is a stop pass, after which Deployment and Service are missing or terminating, nothing is tracked and nothing that was tracked is alive. |
| LifecycleRuns.StaysStopped | internal/controller/state_machine.go:64-88 | In every run whose passes towards Running, where Stopped is shown, store a status other than an error, a workspace that shows Stopped is stopped. |
| LifecycleRuns.NeverMisleadsIff | internal/controller/state_machine.go:215-362 | Whatever the cluster does, a pass towards Running leaves Stopped true to the objects exactly when it was not shown before. |
| LifecycleRuns.RestartMisleads | internal/controller/state_machine.go:215-268 | An instance: a stopped workspace started again. |
| LifecycleRuns.RunsKeepClaim | internal/controller/state_machine.go:103-362 | In every run of passes towards Running and Stopped the claim, once there, is never deleted. |
| Lifecycle.DeletionIsSafe | internal/controller/state_machine.go:543-580 | Whatever fails: the finalizer is removed only when Deployment, Service and claim do not exist and no tracked access resource is alive. |
| LifecycleRuns.RunsLeaveNothing | internal/controller/state_machine.go:543-580 | In every run a workspace without its finalizer leaves behind no Deployment, Service or claim and no live tracked access resource. |
| LifecycleRuns.RunsForgetNothing | internal/controller/resource_manager_access.go:60-132 | In every run whose passes towards Running ask for no untracked access resource or write their status, every live access resource is tracked, and a workspace without its finalizer leaves nothing alive. |
| LifecycleRuns.NewForgetsNothing | internal/controller/workspace_controller.go:126-144 | That from a new workspace on. |
| LifecycleRuns.NewLeavesNothing | internal/controller/workspace_controller.go:126-144 | From a new workspace on, to which the finalizer is added before anything is created, a workspace without its finalizer leaves behind no Deployment, Service or claim and no live tracked access resource. |
| Lifecycle.DeletionProgress | internal/controller/resource_manager.go:472-536 | A deletion pass without API errors leaves nothing alive, and removes the finalizer if nothing was left before it. |
| Lifecycle.OrderlyDeletion | internal/controller/state_machine.go:543-580 | A deletion pass meets no error when no call fails and no live object goes of itself. |
| Lifecycle.DeletionEnds | internal/controller/state_machine.go:543-580 | If no call fails, no live object goes of itself and terminating objects go one by one, deletion ends within two rounds more than there are objects, whose count decreases. |
| Running.EnsureObjectExists | internal/controller/resource_manager.go:194-250 | Creates claim, Deployment or Service when it is not there; otherwise brings it up to date if the workspace is available. |
| Running.FindTracked | internal/controller/resource_manager_access.go:151-157 | The place of a reference in the tracked list. |
| Running.EnsureAccessResourceExists | internal/controller/resource_manager_access.go:135-289 | Updates a tracked access resource, recreates one that is gone, creates a new one or takes over one that exists, and tracks it. |
| Running.EnsureAccessResourcesExist | internal/controller/resource_manager_access.go:60-132 | Everything the strategy asks for, then the removal of what it no longer asks for, up to the first error. |
| Running.ReconcileAccessForDesiredRunningStatus | internal/controller/state_machine_access.go:20-70 | With a strategy its resources are ensured, without one all tracked resources are deleted. |
| Running.ReconcileDesiredRunningStatus | internal/controller/state_machine.go:215-362 | One pass towards Running against the same failing cluster: leaves exactly the state, and returns the result, that `Availability.RunningIff` and `Availability.OtherwiseIff` characterise. |
| Running.RunningKeeps | internal/controller/state_machine.go:215-362 | Whatever fails, the pass never deletes claim, Deployment or Service. |
| Running.RunningNeverStops | internal/controller/state_machine.go:215-362 | It leaves the finalizer and never turns Stopped to true. |
| Running.TrackedIsWanted | internal/controller/resource_manager_access.go:60-132 | After an access reconcile without errors exactly what the strategy asks for is tracked, and what was tracked and is no longer asked for is down. |
| Running.AvailableIsTracked | internal/controller/state_machine.go:312-334 | Available is written only with exactly the access resources of the strategy tracked. |
| Availability.RunningIff | internal/controller/state_machine.go:275-334 | Running is written exactly when the objects met no error, the Deployment was found and is ready, the Service is ready, the access reconcile went well, the probe is ready and the write is taken. |
| Availability.OtherwiseIff | internal/controller/state_machine.go:215-362 | Exactly when the pass gives up, waits or reports an error, what it says is ready, and whether it is done or comes back. |
| Availability.TurnsAvailable | internal/controller/state_machine.go:320-341 | A pass turns Available to true only by writing Running, and writing Running always does. |
| Availability.ExistsByAnswers | internal/controller/resource_manager.go:194-284 | From the cluster's answers alone: exactly when claim, Deployment or Service is ensured, and that it is then there. |
| Availability.CreatedByAnswers | internal/controller/resource_manager_access.go:200-289 | The same for an access resource that is created or taken over. |
| Availability.AccessByAnswers | internal/controller/resource_manager_access.go:135-289 | The same for one that is tracked. |
| Availability.ClaimBeforeDeployment | internal/controller/state_machine.go:223-260 | A Deployment is created only once the claim it mounts is there. |
| Availability.TroubleIff | internal/controller/state_machine.go:223-273 | The first of claim, Deployment and Service that cannot be ensured is the one reported. |
| Availability.RunningStands | internal/controller/state_machine.go:215-341 | When Running is written the Deployment was there before the pass, and Deployment, Service, claim and every access resource of the strategy exist unless someone else touches them. |
| Availability.ServedRuns | internal/controller/state_machine.go:215-362 | In a cluster that serves every call a pass that has all it waits for writes Running exactly when the Deployment is there already, and else creates it. |
| Availability.RunsInTwo | internal/controller/state_machine.go:215-362 | Two such passes report a workspace without a Deployment as running. |
| Availability.AvailableStep | internal/controller/status_manager.go:74-438 | Of all steps of a workspace's life only a pass that writes Running turns Available to true. |
| Availability.RunsAvailableTruly | internal/controller/state_machine.go:215-341 | In every run, when Available turns true the probe and the objects were ready, exactly the strategy's access resources are tracked, and what nobody else touched exists. |
| Availability.RunningAfterProbe | internal/controller/state_machine.go:291-317 | Under a probed strategy Running is written only after a probe of that version has succeeded and no stop has been written since. |
| Availability.GivesUpAfterProbe | internal/controller/state_machine.go:304-312 | The permanent degradation is written only when the failed probes have used up the threshold. |
| AccessTracking.StoredStartTracks | internal/controller/state_machine.go:215-362 | A pass whose status write is stored forgets no live access resource. |
| AccessTracking.NothingNewTracks | internal/controller/state_machine.go:215-362 | Nor does one that asks for no untracked access resource, its write stored or not, whatever fails. |
| AccessTracking.NeverForgetsIff | internal/controller/resource_manager_access.go:60-289 | Whatever the cluster does, a pass whose objects can be built forgets no live access resource exactly when it asks for none that is not tracked, or Deployment or Service is not there and ready. |
| AccessTracking.FailedStartForgets | internal/controller/state_machine.go:284-296 | An instance: Deployment and Service running, and a strategy that has just been given a route. |
| Admission.ValidateImageAllowed | internal/webhook/v1alpha1/image_validator.go:15-39 | A violation exactly when the image is not allowed. |
| Admission.ValidateResourceBounds | internal/webhook/v1alpha1/resource_validator.go:17-66 | No violation exactly when limits cover requests and both are within bounds. |
| Admission.ValidateResourceListBounds | internal/webhook/v1alpha1/resource_validator.go:70-104 | No violation exactly when all amounts are within bounds, and every violation names a bound that is broken, whatever the order of the map. |
| Admission.ValidateStorageSize | internal/webhook/v1alpha1/storage_validator.go:107-134 | A violation exactly when the size is out of bounds. |
| Admission.ValidateInitContainers | internal/webhook/v1alpha1/initcontainer_validator.go:21-52 | A violation exactly when custom init containers are not allowed and the list is not the default one. |
| Admission.ValidateEnvRequirements | internal/webhook/v1alpha1/env_validator.go:16-66 | No violation exactly when every required variable is there and every value matches. |
| Admission.EnvValueIsLast | internal/webhook/v1alpha1/env_validator.go:16-40 | The value of a variable is its last entry. |
| Admission.ValidateIdleTimeoutBounds | internal/webhook/v1alpha1/idle_shutdown_validator.go:94-143 | A violation exactly when the timeout is out of bounds, a locked policy pinning the sides it does not declare. |
| Admission.ValidateIdleShutdownOverrides | internal/webhook/v1alpha1/idle_shutdown_validator.go:36-89 | No violation exactly when the lock and the bounds are respected, and which violation it is. |
| Admission.ValidateCreateWorkspace | internal/webhook/v1alpha1/template_validator.go:78-146 | Accepts exactly the specs that fit their template, found in an allowed namespace, labels satisfied. |
| Admission.WithinIsFits | internal/webhook/v1alpha1/template_validator.go:78-146 | The checks together say exactly the constraints on image, resources, storage, volumes, init containers, env and idle shutdown, written out. |
| Admission.ValidateUpdateWorkspace | internal/webhook/v1alpha1/template_validator.go:150-212 | Accepts exactly the unchecked updates and the specs within their template: detaching, repeating and only stopping always pass, and what passes unchecked differs in nothing else. |
| Admission.RunsStayWithin | internal/webhook/v1alpha1/template_validator.go:150-212 | In every run of accepted requests against unchanging templates the spec stays within every constraint, up to the form of an empty header list. |
| Admission.LockIsLostIff | internal/webhook/v1alpha1/spec_comparator.go:17-44 | The reflective comparison of a locked idle policy is lost exactly when an unchecked update turns a nil header list into an empty one or back. |
| Admission.RunsStayAdmissible | internal/webhook/v1alpha1/template_validator.go:150-212 | In every run without such an update all constraints hold as the validator reads them. |
| Admission.EmptyHeaders | internal/webhook/v1alpha1/idle_shutdown_validator.go:63-77 | An instance of such an update. |
| Admission.ValidateTemplateConsistency | internal/webhook/v1alpha1/template_webhook.go:260-278 | Accepts exactly the consistent templates. |
| Admission.ValidateTemplateImageConsistency | internal/webhook/v1alpha1/image_validator.go:49-69 | Accepts exactly when the default image is allowed. |
| Admission.ValidateTemplateResourceBoundsConsistency | internal/webhook/v1alpha1/resource_validator.go:110-126 | Accepts exactly when no minimum exceeds its maximum, whatever the order of the map. |
| Admission.ValidateIdleShutdownPolicyConsistency | internal/webhook/v1alpha1/template_webhook.go:284-333 | Accepts exactly the consistent idle policies. |
| Admission.Draft.ApplyTemplateDefaults | internal/webhook/v1alpha1/initcontainer_defaulter.go:15-22 | Fills image, idle shutdown and init containers where they are not given, and keeps what is. |
| Admission.DefaultImageOkIff | internal/webhook/v1alpha1/image_validator.go:49-69 | The consistency check of a template's image is exactly that its default passes the image check. |
| Admission.DefaultIdleOkIff | internal/webhook/v1alpha1/template_webhook.go:312-330 | The default idle shutdown passes lock and bounds, one-sided locked bounds included, exactly when it is off or within the declared bounds. |
| Admission.ForbiddenIsLocked | internal/webhook/v1alpha1/template_webhook.go:284-333 | Under a consistent template that forbids overrides every admitted idle shutdown is the default's, up to its timeout. |
| Admission.DefaultsAreAdmitted | internal/webhook/v1alpha1/core_defaulter.go:13-17 | A consistent template admits a workspace that asks for nothing, after defaulting, exactly when its resources, storage, volumes and env are admissible. |
| Admission.ConsistentBoundsAdmit | internal/webhook/v1alpha1/storage_validator.go:139-153 | Bounds are consistent exactly when some amount satisfies them. |

## Left out

- HTTP servers, OIDC, cookies as such, pod exec, plugin clients and informer wiring: plumbing without an invariant of its own.
- HMAC, JSON, SHA-256 and random keys: a token carries the key that signed it, a digest is its input text.
- Clock skew between pods and the truncation of stored times to seconds: one integer clock is used. The 5 second leeway is part of validation and of the refresh bounds; the rotation protocol promises acceptance up to expiry itself.
- Floating-point rounding in the derivation of the number of keys: the ceiling is exact.
- The `text/template`, JSONPath and regular expression engines: a small template language (text, workspace fields, parameters, dynamic index, `resource`, conditionals), JSONPath as a partial function of object and path, and the expressions a wildcard pattern can produce.
- RotationProtocol.SufficientIsEnough: needs the watch lag strictly below the cool-off; `RotationLimits.SlowWatch` shows that equality is not enough.
- RotationLimits.SufficientIsExact: the half that builds failing runs is for clocks that keep the number of digits of a kid while the keys rotate out (`RotationLimits.TenDigitPlanOk`: the years 2001 to 2286).
- Rotation across kids of different lengths: `KeyHistory.OrdersAgreeIff` says when the string order still serves, `KeyHistory.LengthsMatter` gives a case in which it does not; the protocol is for kids of one length.
- Validation.NeverStaticIff: for templates with constant `resource` arguments in which no condition reached is a dynamic lookup of an undeclared parameter; the sound half (`Validation.TakenIsSound`) covers those conditions too, taking both branches.
- Access resources a pass has forgotten (`AccessTracking.NeverForgetsIff` says when): their owner reference leaves them to the garbage collector of the cluster, which is not modelled. The half that builds failing clusters, there and in `LifecycleRuns.NeverMisleadsIff`, is for objects that can be built and compared.
- How `Running` compares an object with what is built for it: the outcome of the comparison, like that of a build, is an input; `PodBuild` and `Freeze` are about builds. Idle shutdown after a pass that reached Running is not part of it.
- Value templates of access strategies that read the workspace's env: in `PodBuild` the strategy's values do not depend on it.
- Labels and annotations in the comparison of Deployments, the refetch of the access strategy and scheduling, resources and probes of the pod: the pod is its env, mounts, containers and volumes.
- Texts of API errors in conditions: fixed texts stand for them.
- Writes by administrators, which skip template validation, and label requirements, which metadata-only updates skip: outside the admission results.
- Self-consistency of default storage, resources and volumes: templates are not checked for it.
- Finalizer protection of templates and access strategies, the namespace encoding, the SSM adapter, idle detection, image name resolution and the documentation scripts: easy members, or dependent on code that is not part of this model.
