# Vault Sidecar Injector: verified model

A Dafny 4.11 model of the Vault Sidecar Injector's admission webhook, its job signalling scripts and its
`vaultinjector-env` helper, with proofs of what they guarantee.

The webhook decodes a submitted pod, decides whether to mutate it, and answers with a JSON Patch. All
indices in that patch come from the submitted pod, while the operations are applied one after another to
a changing document. The central result is a refinement: applied by a model of RFC 6902 and RFC 6901 to
the submitted JSON document, the emitted list never fails and yields exactly the intended document.

## Layout

| file | content |
|---|---|
| `Text.dfy`, `GoPath.dfy` | the string and path functions of the Go library in use, with their laws |
| `JsonPatch.dfy`, `Formats.dfy` | JSON documents, pointers (sections 3 and 4 of RFC 6901), `add` and `replace` (sections 3, 4.1, 4.3 of RFC 6902), the three shapes of patch the injector builds; laws of escaping, of `replace` and of a manifest's keys |
| `Manifest.dfy` | pods, containers, volumes, mounts: reading them from a document and writing them back |
| `Config.dfy`, `Modes.dfy` | configuration, request context, mode registry and mode selection |
| `Templates.dfy`, `TemplateConditions.dfy`, `Rendering.dfy` | placeholder substitution, the exact conditions under which the passes are one substitution, and the rendered Vault Agent templates |
| `Secrets.dfy`, `Proxy.dfy`, `Job.dfy` | the three modes: compute, inject and patch functions |
| `Hooks.dfy` | the words of a post-start hook, and which mount paths leave no placeholder in them |
| `PodUpdate.dfy` | the functions the webhook computes for one pod |
| `Meaning.dfy` | what annotations, labels and mounts mean, over the raw texts alone: requested modes, the context's parts, every reason to reject a pod and their order |
| `Injector.dfy`, `Server.dfy` | the webhook's methods, step by step, over a heap-allocated shared configuration |
| `Refinement.dfy` | the patch refines the intended mutation; index stability |
| `Mutation.dfy` | acceptance, applicability of the response, reading the mutated pod, idempotence |
| `Divergences.dfy` | where the code departs from its documentation: exact conditions and concrete requests |
| `Guarantees.dfy` | what the mutated pod holds, in terms of the submitted one: injected containers, templates, own containers, volumes, job pairing, environment injection, reference integrity |
| `Orders.dfy` | the loop over the modes as a fold, and its independence of Go's map iteration order |
| `JobProtocol.dfy` | babysitter and agent scripts as a concurrent step system: safety and progress |
| `EnvProcess.dfy` | the helper's argument unwrapping and properties file parser |

A function of `PodUpdate.dfy` or of a mode states what is computed; the method of the same step computes
it with the source's loops and is proved equal to it; the lemmas then prove what the function promises, over
the raw annotations, labels and configuration (`Meaning.dfy`), without naming the function's own parts.
Loops over Go maps pick the next key nondeterministically, so a method's contract holds for every
iteration order.

## Where code and documentation differ

- The usage guide says annotations are added to the pod. With no status yet, the patch adds the whole
  annotations object, which replaces the existing one (section 4.1 of RFC 6902). The pod's other
  annotations survive only if it already has a status and keys carry no prefix: `OtherAnnotationsKept`.
- With a status that is set but not `injected`, the patch replaces an annotation whose key is not escaped
  (section 3 of RFC 6901). With a key prefix that operation, and so the whole patch, cannot be applied:
  `ResponseApplies` gives the exact condition, `PendingStatus` a request.
- The usage guide allows static secrets with the `kubernetes` method only. The check compares the raw
  annotation while authentication uses its lower-cased value: `StaticAppRole` gives the exact condition,
  `AppRoleSpelling` an accepted request for every configuration.
- The usage guide enables `secrets` when only `job` is set. The code does so when `job` is the only
  requested entry, counting unknown ones: `JobAlone` and, for `job,other`, `JobWithUnknown`.
- The four replace-all passes over a template block are one substitution only under conditions on block,
  destination, template and path; each is exact: `BlockNeeded`, `DestinationNeeded`, `ContentNeeded`,
  `PathNeeded`.
- A post-start hook's placeholder is filled by replacing all. For every hook nothing is left of it exactly
  when the mount path is inert, `NoneLeftIff`. An absolute path without `<` is, `AbsoluteInert`; a relative
  one without `<` need not be, `RelativeFormed`.

## Model

| member | source | states |
|---|---|---|
| Text.SplitJoin | pkg/mode/secrets/secrets-func-compute.go:31-34 | splitting undoes joining exactly on the lists where every entry but the last meets its separator at its own end and the last has none |
| Text.JoinSplit | pkg/mode/secrets/secrets-func-compute.go:31-34 | joining the entries of an annotation gives the annotation back |
| Text.ReplaceIsJoin | pkg/mode/secrets/secrets-func-patch.go:113-113 | replacing all occurrences is joining the pieces between them with the new text |
| Text.TrimSuffixIs | pkg/webhook/update-pod.go:133-133 | the suffix is taken away once, from a text that ends with it |
| Text.TrimSpaceIs | cmd/vaultinjector-env/main.go:129-132 | trimming takes away the white space at both ends and nothing else |
| Text.LowerLaws | pkg/webhook/utils.go:84-93 | lower-casing goes letter by letter, takes each capital to its small letter and is done at once |
| JsonPatch.PointerAppend | pkg/mode/secrets/secrets-func-patch.go:66-70 | JSON pointers concatenate token by token, whatever the escapes |
| JsonPatch.PointerElement | pkg/webhook/update-pod.go:264-276 | a printed index parses back to itself and every emitted element path to the tokens meant |
| JsonPatch.ApplyEdits | pkg/webhook/update-pod.go:322-337 | operations at `base/index/...` rewrite exactly the elements they name, for any prefix of the list |
| JsonPatch.ApplyInserts | pkg/webhook/update-pod.go:257-276 | inserting at 0, 1, 2, ... puts the values in front in order, creating the array when the pod has none |
| JsonPatch.ApplyAppends | pkg/webhook/update-pod.go:367-382 | `-` operations append the values in order, creating the array first when it does not exist |
| Formats.PointerEscaped | pkg/webhook/utils.go:132-138 | a token escaped as section 3 of RFC 6901 asks reads back as itself, whatever it holds |
| Formats.ReplaceLaw | pkg/mode/secrets/secrets-func-patch.go:130-135 | a replacement applies exactly when its target exists, and then the target is the value |
| Manifest.ReadWriteContainer | pkg/mode/secrets/secrets-func-patch.go:130-135 | a container written as a patch value reads back as the same container |
| Modes.GetModesStatus | pkg/mode/mode.go:37-81 | whatever the map order, the caller's table gains the status of each registered mode for some default key |
| Modes.ModeSelection | pkg/mode/mode.go:49-80 | with one default mode: enabled are exactly the requested registered modes, plus the default iff nothing was requested or the sole request asks for it; no other key appears |
| Modes.StatusKeysRegistered | pkg/mode/mode.go:38-53 | status keys stay inside the registry for every request exactly when a default mode is registered or the empty name is a mode |
| Modes.IsEnabledModes | pkg/mode/mode.go:88-99 | true exactly when the enabled modes are those given, up to order |
| Meaning.ModesRequested | pkg/webhook/update-pod.go:75-82 | each mode's status over the annotation texts, deprecated workload annotation included |
| Meaning.ContextGiven | pkg/webhook/update-pod.go:87-118 | role: the annotation, else with `kubernetes` the application label, else none; method: the lower-cased annotation or `kubernetes`; image: the annotation |
| Meaning.ContextVolumes | pkg/webhook/update-pod.go:125-137 | the volumes of the pod's first mounts at the default path and at the token's, whose path may be given with or without `/token` |
| Meaning.SecretsErrorFirst | pkg/mode/secrets/secrets-func-compute.go:40-126 | the secrets annotations are refused exactly for one of the listed reasons, the first in the order of the checks |
| Meaning.ErrorFirst | pkg/webhook/update-pod.go:32-70 | so is the whole pod: the patch fails exactly for a reason over raw texts, a first one in the order of the checks |
| Secrets.SecretsModeCompute | pkg/mode/secrets/secrets-func-compute.go:28-152 | succeeds exactly when no check refuses the annotations; the configuration is type, method and rendered blocks |
| Secrets.SecretsError | pkg/mode/secrets/secrets-func-compute.go:40-126 | an error is reported exactly when some refusal reason holds, in any order of checks |
| Secrets.SecretsModeInject | pkg/mode/secrets/secrets-func-inject.go:25-52 | init containers for static secrets, agent for dynamic ones; only the templates variable of the caller's slice is written |
| Secrets.GetMountPathOfSecretsVolume | pkg/mode/secrets/utils.go:61-72 | the path of the first mount of the secrets volume |
| Secrets.PatchCommand | pkg/mode/secrets/secrets-func-patch.go:52-79 | wraps every command, or fails on the first container without one |
| Secrets.RenderHook | pkg/mode/secrets/secrets-func-patch.go:108-114 | the shared hook command is copied before its placeholder is filled |
| Hooks.WordFilled | pkg/mode/secrets/secrets-func-patch.go:112-114 | the first placeholder of a word becomes the mount path, and what follows is filled in turn |
| Hooks.WordKept | pkg/mode/secrets/secrets-func-patch.go:112-114 | a word without placeholder is kept |
| Hooks.NoneLeftIff | pkg/mode/secrets/secrets-func-patch.go:112-114 | no placeholder is left, whatever the word, exactly when the mount path neither holds nor half-opens one nor can stand inside or at the end of one |
| Hooks.AbsoluteInert | pkg/mode/secrets/secrets-func-patch.go:102-106 | every absolute path without `<` is such a path |
| Hooks.RelativeFormed | pkg/mode/secrets/secrets-func-patch.go:112-114 | a path without `<` that forms a placeholder with the text around it |
| Proxy.ProxyModeInject | pkg/mode/proxy/proxy-func-inject.go:25-42 | the agent sidecar, with only the proxy configuration variable written |
| Proxy.ProxyText | pkg/mode/proxy/proxy-func-compute.go:23-33 | every port placeholder becomes the annotation's port, or 8200 when none is given |
| Job.JobModeInject | pkg/mode/job/job-func-inject.go:27-62 | fails unless the pod has one container; injects only while job mode is active; writes only the two job variables |
| GoPath.JoinPathFile | pkg/mode/secrets/secrets-func-patch.go:63-63 | `path.Join` of a directory and a file name is the cleaned directory, a slash and the name |
| GoPath.CleanRules | pkg/mode/secrets/secrets-func-patch.go:63-63 | doubled slashes and `.` are dropped, and `..` takes away the plain element before it |
| GoPath.CleanRoot | pkg/mode/secrets/secrets-func-patch.go:63-63 | `..` at the root is dropped |
| GoPath.CleanFixed | pkg/mode/secrets/secrets-func-patch.go:63-63 | a rooted path of plain elements is clean already |
| Templates.PassesAreSimultaneous | pkg/mode/secrets/secrets-func-compute.go:140-149 | when block, destination, template and path are each safe, the four replace-all passes equal one simultaneous substitution, path and command filled inside the template; nothing is asked of the command |
| Templates.NoPlaceholderLeft | pkg/mode/secrets/secrets-func-compute.go:140-149 | no placeholder, not even a half-open one, remains in the output |
| TemplateConditions.HalfOpenLiteral | pkg/mode/secrets/secrets-func-compute.go:142-143 | a concrete block whose literal half-opens a placeholder, on which passes and substitution differ |
| TemplateConditions.PlaceholderInDestination | pkg/mode/secrets/secrets-func-compute.go:142-145 | a destination holding a later placeholder is itself rewritten |
| TemplateConditions.BlockNeeded | pkg/mode/secrets/secrets-func-compute.go:141-145 | passes and substitution agree for all safe values exactly when no literal of the block half-opens, right before a hole, a placeholder replaced later |
| TemplateConditions.DestinationNeeded | pkg/mode/secrets/secrets-func-compute.go:142-145 | they agree for all safe other parts exactly when the destination neither holds nor half-opens one of the three later placeholders |
| TemplateConditions.ContentNeeded | pkg/mode/secrets/secrets-func-compute.go:143-145 | they agree for all safe other parts exactly when the template neither half-opens the command's placeholder before its path hole nor ends half-opening the path's or the command's |
| TemplateConditions.PathNeeded | pkg/mode/secrets/secrets-func-compute.go:144-145 | they agree for all safe other parts exactly when the path neither holds nor half-opens the command's placeholder |
| Rendering.Pairing | pkg/mode/secrets/secrets-func-compute.go:90-151 | the template is the concatenation in order of one block per destination; block i holds destination, template and path i or their defaults, the default path being `secret/`, application label, `/`, service label, and command i when there is one |
| Rendering.RenderedSecrets | pkg/mode/secrets/secrets-func-compute.go:137-151 | with a safe block and safe values, whatever the commands, the whole computed template is made of simultaneous substitutions |
| Rendering.NoneLeft | pkg/mode/secrets/secrets-func-compute.go:137-151 | when nothing half-opens a placeholder, none is left anywhere in the computed template, not even across blocks |
| Injector.GetServiceAccountTokenVolumeName | pkg/webhook/utils.go:99-119 | the name of the first mount at the path over all containers, or an error when there is none or it is empty |
| Injector.MutationPolicy | pkg/webhook/utils.go:51-97 | the loop over the system namespaces and the two annotations compute the predicate that `Mutation.Policy` explains |
| Mutation.Policy | pkg/webhook/utils.go:51-97 | a readable pod is allowed without a patch exactly when its namespace is `kube-system` or `kube-public`, its lower-cased status is `injected` or its lower-cased inject annotation is none of `y`, `yes`, `true`, `on` |
| Injector.UpdateAnnotation | pkg/webhook/utils.go:121-142 | for some order of the annotations added: replace all annotations at each that is absent or empty in what is left, replace its value otherwise; for a single one this is determined |
| Injector.AnnotationOpsAt | pkg/webhook/utils.go:125-140 | an annotation is replaced when the pod gives it and all those before it; else the operation puts it in place of all annotations |
| Injector.AddVolumeMount | pkg/webhook/update-pod.go:291-341 | one mount edit for each container without a secrets mount |
| Injector.AddVolume | pkg/webhook/update-pod.go:343-386 | appends the configured volumes but a secrets volume the pod has |
| Injector.InjectByModes | pkg/webhook/update-pod.go:198-212 | the loop over the enabled modes, in any order, ends with the decision, the variables and the error that depend on the set of modes alone |
| Server.ResolveOne | pkg/webhook/update-pod.go:192-253 | copies the shared slices, resolves the copies, and yields the resolved container iff some mode wants it |
| Server.VaultInjector.AddContainer | pkg/webhook/update-pod.go:177-282 | front insertions of the wanted containers, or the job count error; the configuration is unchanged |
| Server.HookAll | pkg/mode/secrets/secrets-func-patch.go:100-136 | one whole-container replacement each; the decoded lifecycle objects, and nothing else, are updated in place |
| Server.AddLifecycleHooks | pkg/mode/secrets/secrets-func-patch.go:81-141 | no hooks, an error or the replacements, by annotation, job mode and configured handler |
| Server.ComputeContext | pkg/webhook/update-pod.go:72-159 | the request context or the first error, for every order of the mode maps |
| Server.VaultInjector.PatchPod | pkg/webhook/update-pod.go:161-174 | the own-container patch, for every order of the mode map |
| Server.VaultInjector.UpdatePodSpec | pkg/webhook/update-pod.go:32-70 | the four stages in order, or the first error |
| Server.VaultInjector.CreatePatch | pkg/webhook/mutate.go:96-109 | the spec patch followed by the status annotation |
| Server.VaultInjector.Mutate | pkg/webhook/mutate.go:27-93 | the response is a function of configuration and request; nothing allocated before is modified |
| Server.VaultInjector.MutateAll | pkg/webhook/webhook-server.go:118-125 | over any run of requests the shared configuration is unchanged and each response is a fresh injector's |
| Server.New | pkg/webhook/webhook-server.go:45-65 | a fresh injector holds the loaded configuration and the qualified form of every annotation key, the modes' included |
| Refinement.PatchRefinement | pkg/webhook/update-pod.go:32-70 | every operation applies, and the result is exactly the submitted document with the three arrays replaced by the intended ones |
| Refinement.OwnAndMounts | pkg/webhook/update-pod.go:49-55 | own containers rewritten and the secrets mount added once, the other arrays untouched |
| Refinement.InjectionStages | pkg/webhook/update-pod.go:55-64 | volumes appended, then init containers and sidecars put in front |
| Refinement.IndexStability | pkg/webhook/update-pod.go:49-64 | at every intermediate document before the first injected container both container arrays keep length and names |
| Mutation.ResponseApplies | pkg/webhook/utils.go:121-142 | the whole response applies exactly when the status is empty or keys have no prefix, and then gives exactly the mutated document |
| Mutation.OtherAnnotationsKept | pkg/webhook/utils.go:121-142 | applying the response succeeds and keeps every other annotation exactly when the pod already had a non-empty status and keys carry no prefix |
| Mutation.ReadMutated | pkg/webhook/update-pod.go:32-70 | the mutated document reads as the intended pod |
| Mutation.Idempotence | pkg/webhook/mutate.go:63-106 | reviewing the mutated pod again allows it without a patch |
| Mutation.Acceptance | pkg/webhook/mutate.go:62-92 | a pod to be mutated is allowed exactly when no reason holds over its annotations, labels and mounts; else the response carries no patch and a first reason in the order of the checks |
| Divergences.StaticAppRole | pkg/mode/secrets/secrets-func-compute.go:83-88 | a pod asking for static secrets that authenticates with AppRole is rejected exactly when the annotation is spelled in lower case or another reason holds |
| Divergences.AppRoleSpelling | pkg/webhook/update-pod.go:88-88 | for every configuration, a concrete such pod is accepted with a patch for every spelling but the lower-case one |
| Divergences.PendingStatus | pkg/webhook/utils.go:132-138 | for every configuration, a concrete pod with a pending status gets a patch that applies exactly when keys carry no prefix |
| Divergences.JobAlone | pkg/mode/mode.go:49-80 | when job is the only registered mode asked for, secrets are enabled exactly when nothing else is asked for |
| Divergences.JobWithUnknown | pkg/mode/mode.go:56-70 | `job` enables secrets, `job,other` does not |
| Divergences.JobWithUnknownAccepted | pkg/mode/mode.go:56-70 | and a concrete request with `job,other` is accepted with a patch |
| Guarantees.InjectionTable | pkg/mode/job/job-func-inject.go:34-61 | which names are injected where, and when job mode is active |
| Guarantees.InjectedInOrder | pkg/webhook/update-pod.go:192-217 | injected containers are the wanted configured ones, each once, in configuration order |
| Guarantees.TokenVolumes | pkg/webhook/update-pod.go:239-246 | token mounts of injected containers name volumes the pod itself mounts at the right paths; other mounts are kept |
| Guarantees.ResolvedFrame | pkg/webhook/update-pod.go:193-253 | an injected container differs from its configuration in its image and its variables' values only; image and the value of every variable are given |
| Guarantees.InitMeaning | pkg/webhook/update-pod.go:192-253 | every injected init container is a configured one with the pod's image, role, authentication method and token volumes in place, all else as configured |
| Guarantees.SidecarMeaning | pkg/webhook/update-pod.go:192-253 | so is every injected sidecar |
| Guarantees.InjectedNames | pkg/webhook/update-pod.go:192-217 | which containers are injected, over the annotations and what the configuration declares |
| Guarantees.InitTemplates | pkg/mode/secrets/secrets-func-inject.go:36-44 | an injected init container finds all rendered blocks, in order, in its templates variable |
| Guarantees.SidecarTemplates | pkg/mode/secrets/secrets-func-inject.go:25-52 | an injected agent finds them there when secrets are dynamic; a sidecar that serves only the proxy or a job keeps the configured value |
| Guarantees.SidecarProxy | pkg/mode/proxy/proxy-func-inject.go:25-42 | the injected agent finds the filled proxy configuration when the proxy is asked for, and keeps the configured value otherwise |
| Guarantees.OwnContainerFrame | pkg/mode/secrets/secrets-func-patch.go:32-141 | what the mutation keeps of a submitted container; when hooks are added, by annotations and configuration; the handler's JSON form word by word |
| Guarantees.OwnInitFrame | pkg/webhook/update-pod.go:291-341 | of a submitted init container only the mounts are completed |
| Guarantees.AddedInOrder | pkg/webhook/update-pod.go:343-386 | the configured volumes are added whole and in order, all but one named `secrets` when the pod has one |
| Guarantees.MutatedVolumes | pkg/webhook/update-pod.go:343-386 | the mutated pod's volumes are its own followed by those |
| Guarantees.JobPairing | pkg/mode/job/job-func-inject.go:27-62 | the mutated pod starts with an agent, and with a babysitter, exactly when job mode is active and the configuration declares one, so both or neither when both are declared; workload variable `true`; the babysitter watches the pod's only container |
| Guarantees.WrappedIffHelperInjected | pkg/mode/secrets/secrets-func-patch.go:40-46 | with static secrets asked for as variables, and only then, every own container's command changes; the helper is then among the injected init containers, if declared |
| Guarantees.EnvInjection | cmd/vaultinjector-env/main.go:54-60 | the first word is the helper in the cleaned directory of the container's own secrets mount, and unwrapping gives the submitted process |
| Guarantees.ReferenceIntegrity | pkg/webhook/update-pod.go:284-386 | every mount of the mutated pod names one of its volumes |
| Guarantees.VolumesUnique | pkg/webhook/update-pod.go:348-363 | volume names stay unique when the pod shares none with the configuration but secrets |
| Orders.OrderIndependence | pkg/webhook/update-pod.go:198-212 | two orders of the same modes give the same decision, variables and error, for init containers and sidecars |
| JobProtocol.Safety | deploy/helm/config/injectionconfig.yaml:92-109 | in every run the signal exists only after the watched container, one of the pod's, terminated, and the agent leaves only after the signal |
| JobProtocol.RanksDecrease | deploy/helm/config/injectionconfig.yaml:101-109 | the measures behind progress decrease at each useful step |
| JobProtocol.Progress | deploy/helm/config/injectionconfig.yaml:201-211 | in a fair run whose watched container terminated for good, both sidecars exit exactly when access was not refused |
| JobProtocol.NoSignalWithoutAccess | deploy/helm/config/injectionconfig.yaml:95-99 | after the refused access check no signal is ever sent and the agent never exits |
| JobProtocol.AccessDecides | deploy/helm/config/injectionconfig.yaml:95-99 | the babysitter fails exactly when its access check was refused |
| JobProtocol.RevokesFirst | deploy/helm/config/injectionconfig.yaml:202-209 | the agent is done only after it revoked its token, after the signal |
| JobProtocol.ForegroundStays | deploy/helm/config/injectionconfig.yaml:201-214 | an agent not told it runs beside a job never exits by itself |
| JobProtocol.SignalIffNamed | deploy/helm/config/injectionconfig.yaml:102-106 | a babysitter can signal in some run exactly when some container of the pod bears the name it was told |
| JobProtocol.InjectedJobProgress | pkg/mode/job/job-func-inject.go:46-57 | an injected babysitter and agent get the variables under which the signal waits for the pod's own container and both exit after it exactly when access was not refused |
| EnvProcess.ParsePropertiesFile | cmd/vaultinjector-env/main.go:110-145 | the scanner loop computes the properties of all lines, or an error on a line too long |
| EnvProcess.LineMeaning | cmd/vaultinjector-env/main.go:127-136 | the first equals sign separates key and value, both trimmed; a line without one, or with a blank key, holds nothing |
| EnvProcess.ScannedLines | cmd/vaultinjector-env/main.go:124-127 | the lines are the terminated ones and what follows the last line break unless it is empty |
| EnvProcess.OneMoreLine | cmd/vaultinjector-env/main.go:124-137 | one more line adds what it holds, one carriage return at its end aside |
| EnvProcess.PropertiesRoundTrip | cmd/vaultinjector-env/main.go:124-144 | parsing the default template's printed form of proper pairs gives back the same list |
| EnvProcess.ParsePrintParse | cmd/vaultinjector-env/main.go:124-144 | on any accepted file, parsing, printing and parsing again is parsing once |

## Left out

- HTTP serving, AdmissionReview decoding and version conversion, logging, metrics, certificates, flags and configuration loading: plumbing around the decision.
- Vault Agent, Consul Template and Vault itself; of the default template only the key and value lines it prints are modelled.
- Process execution, the directory listing and file reads of the helper: file contents and arguments are inputs.
- Decoding is stricter than Go's: keys are matched exactly, and an array element that is null instead of an object makes the document unreadable. The API server sends objects in its own exact form.
- Container fields the injector never looks at are kept as they were written when a container is encoded again; Go would also drop fields it does not know and add empty structures.
- ToLower: maps ASCII letters and the two other code points whose lower case is an ASCII letter; results are compared with ASCII words only.
- JobProtocol.Progress: fairness is a hypothesis, and crashes or restarts of the two sidecars are not modelled; containers may take any state at any time until the watched one terminates for good.
- Error messages are reduced to error values with the offending text.
