# Whatap operator: a verified model

The Whatap operator runs monitoring agents in a Kubernetes cluster. One controller turns a `WhatapAgent` custom
resource into agent workloads; an admission webhook injects APM agents into application pods. This project models the
parts of it that decide something, and proves what those decisions amount to for every input, every run and every
iteration order of a Go map.

| module | what it models |
|---|---|
| `NodeSelection` | node-selector terms, their negation, and distributing one list of terms over another |
| `NodePlacement` | where the GPU and the normal node-agent DaemonSet may run, with the affinity object both passes share |
| `ContainerMerge` | merging desired containers into live ones |
| `NodeAgent` | the node-agent step: one or two DaemonSets rendered, merged and stored |
| `EnvVars`, `EnvOverlay` | environment lists, and the merge, upsert and combine overlays with their different winners |
| `DcgmEnv` | the exporter's environment: defaults and an in-place fold of user entries |
| `Injection` | the three language injectors and the final combine with the user's entries |
| `PodPatch` | patching a pod spec: secrets, volumes, init container, container environments |
| `Admission` | target choice, the injected guard, and any sequence of admissions of one pod |
| `OrderedYaml` | canonical ordering of nested configuration values |
| `TlsSecrets` | certificate paths in the scrape configuration and the secret volumes behind them |
| `ScrapeTargets` | scrape targets, GPU duplicate detection and the automatic GPU target |
| `ScrapeOutput` | what the generated trees say, field by field, and when the automatic target is among them |
| `ApiServer` | the API server: calls that may fail before or after they take effect, while the resource is edited |
| `Reconcile` | whole reconcile passes, and runs of them, against that server |
| `Maybe`, `Enumeration`, `LabelSets` | nil-able values; iteration over a Go map; label inclusion |

Code that updates things in place is written as methods over classes, arrays and reassigned fields. Each such method is
proved equal to a specification function or relation, and the lemmas are about that specification. A Go map is visited
through `Enumeration.Iterate`, whose result is any duplicate-free listing of the keys, so everything proved about it
holds for every order.

## How it fits together

* **Placement.** `NegationMeaning` and `CrossMeaning` give the exact meaning of the two term operations.
  `AntiTermsMeaning` lifts them to the list the normal DaemonSet carries, `Disjoint` and `Partition` to both DaemonSets,
  and `CreateOrUpdateNodeAgent` shows that those placements are the ones submitted, through the shared heap objects.
  `Node` values carry the set of `Gt`/`Lt` requirements they meet, so those operators are uninterpreted.
* **Environment.** Every overlay is characterised by the list of entries under each name (`UpsertEntries`,
  `MergeEntries`, `CombineEntries`). The injectors compose these laws (`ScriptEntries`, `JavaEntries`), and
  `FinalEntries` gives, for any container environment, duplicates included, the exact entries of every name at the end.
* **Admission.** `Pod.Default` computes `Admit`; `AtMostOnce` describes any run of it while the custom resource and the
  namespaces change between calls, and `ToolOptionsAtMostOnce` carries the result down to `JAVA_TOOL_OPTIONS`.
* **Scrape configuration.** `ToOrderedYAML` meets the relation `Canonical`, which `CanonicalUnique` shows to be a
  function and `RoundTrip` to lose nothing. `ScrapeOutput` spells out every field of the generated trees.
  `TargetVerdict` carries the duplicate verdict back to the unordered target, `GeneratedPathsBacked` follows every
  certificate setting of the generated trees to a mounted file of the secret its endpoint names, and
  `InstallAndGenerate` runs the node-agent step and the generator for one custom resource.
* **Runs.** The events of the calls account for the objects of the cluster: `Tracks`, which every call meets, says that
  the objects are the earlier ones with the new events replayed. Each step of a pass meets the relation `Step`: its
  stores follow a script, object by object, under the finalizer, and it removes nothing outside a given set. Steps
  compose (`StepThen`, `StepFailed`), and `InstallAll` is the composition for `Script`. `Pass` relates the moments before
  and after one pass to the resource the pass read first; `PassFrame` and `SuccessInstalled` say what that means for
  every object, whatever failed. `Run` shows that any run is a chain of passes, `RunSafety` justifies its events,
  `RunCreated` and `RunRemoved` its objects, and `RunAccounted` the status found at the end. `CalmPass` gives the fate of
  every object in a pass without faults and edits.
* **Written out.** Beside each specification function stands a lemma that says what it amounts to without naming it:
  `StoredEligibility`, `SidecarStays`, `DefaultsExactly`, `FinalExactly`, `PatchedContainer`, `ChoiceExactly`,
  `AdmitExactly`, `BackedExactly`, `AutoAddedExactly`, `InstalledExactly` and the like.

## Where the code and expectations part

* `PYTHONPATH`, `NODE_PATH` and `NODE_OPTIONS` are described as being put in front of an existing value. On the live path
  the prepending branch never sees the container's entries, so an existing value stays as it is and the agent's path is
  lost (`Injection.SearchPathOnlyIfUnset`).
* The affinity object of the custom resource is written by the GPU pass and read by the normal pass. With
  `nodeAgent.affinity` set and a GPU affinity, the nodes outside the GPU affinity get no node agent
  (`NodePlacement.Partition` says exactly when), and without a GPU label the normal DaemonSet runs nowhere
  (`NodePlacement.SharingEmptiesNormal`).
* The pod security context is shared in the same way, so fields of the live GPU DaemonSet reach the normal one
  (`NodeAgent.SecurityLeaks`).
* With two or more GPU labels the stored term list depends on map order, so an unchanged custom resource can rewrite the
  DaemonSet (`NodePlacement.OrderIsStored`), although where it may run does not change (`NodePlacement.OrderIrrelevant`).
* When nothing can be negated (several GPU affinity terms and no labels, or only `Gt`/`Lt`), the two DaemonSets overlap
  (`NodePlacement.AntiTermsEmpty`, `NodePlacement.OverlapWithoutAntiTerms`). With a GPU label and several GPU affinity
  terms, the nodes that have the label and meet none of the terms get no node agent, even without sharing
  (`NodePlacement.SeveralTermsLeaveGap`).
* A `whatap-gpu` label once on a pod template stays there (`NodeAgent.GpuLabelNeverRemoved`).
* An enabled target called `dcgm-exporter-auto` keeps the automatic one away whatever it selects, so the exporter may be
  scraped by no target (`ScrapeTargets.NameSuppressesScraping`; `ScrapeTargets.ScrapedExactly` says exactly when it is).
* A container whose first `JAVA_TOOL_OPTIONS` has an indirect source gets a value beside it, which the API server refuses
  (`Injection.AcceptedExactly` says exactly when that happens).
* After a failed write of the normal DaemonSet the new GPU one runs beside the old normal one
  (`NodeAgent.SecondWriteFailed` says which nodes get both).
* A custom config volume named like the agent volume takes its place, and the agent files then target a ConfigMap
  (`PodPatch.AgentVolumeIsScratch` says exactly when the scratch volume exists).
* The first of several equal environment names is taken to be the one that counts, as the comment at
  `internal/webhook/v2alpha1/utils.go:85-87` says. Whether it does is not part of this model: wherever possible the
  results say that a name occurs exactly once.
* Secrets referenced only by static endpoints are not mounted: `TlsSecrets.BackedExactly` gives the exact set of backed
  paths, and `CollectAllTLSSecrets` collects from inline targets, pod monitors and service monitors only.
* The observed generation is that of a resource read again after the work. It is the generation of the installed
  specification exactly when nobody changed the specification between the first read of the pass and its last write
  (`Reconcile.ObservedExactly`); `Reconcile.NewerThanInstalled` shows a pass, for any resource and any change, that
  installs the old specification and declares the new generation as observed.
* A deletion lets the resource go whatever its cleanup achieved: each failed call may leave an object behind for good
  (`Reconcile.CleanupAgents` bounds how many).
* A pass that fails leaves an earlier success standing when its status writes fail as well (`Reconcile.SuccessIsCurrent`
  says what is enough to trust a success).
* Disabling the node agent, and deleting the resource, leave the GPU DaemonSet (`Reconcile.DisabledNodeAgentKeepsGpu`,
  `Reconcile.CalmPass`).

## Model

| member | source | states |
|---|---|---|
| Enumeration.Iterate | internal/controller/install_agents.go:36-39 | visiting a Go map: some listing of all its keys without repetition, in an order the caller cannot know |
| NodeSelection.NegateNodeSelectorTerm | internal/controller/install_agents.go:2615-2638 | the loop yields one single-requirement term per set-operator requirement, in order, skipping the others |
| NodeSelection.NegationMeaning | internal/controller/install_agents.go:2615-2638 | for any requirements, the produced terms match exactly the nodes that fail some set-operator requirement |
| NodeSelection.NegationSound | internal/controller/install_agents.go:2615-2638 | a node matched by the negation fails the term, whatever the term contains |
| NodeSelection.NegationExact | internal/controller/install_agents.go:2615-2638 | for a non-empty term of set operators without fields, the negation matches exactly the nodes the term does not |
| NodeSelection.NegationInexactBeyondSetOperators | internal/controller/install_agents.go:2628-2629 | when only an uninterpreted requirement fails, neither the term nor its negation matches |
| NodeSelection.NegationWellFormed | internal/controller/install_agents.go:2615-2638 | every produced term is itself negatable; none is produced exactly when no requirement uses a set operator |
| NodeSelection.CrossTerms | internal/controller/install_agents.go:2704-2713 | the nested loops compute the cross product, source terms untouched |
| NodeSelection.CrossMembers | internal/controller/install_agents.go:2704-2713 | the product has one term per pair and nothing else; its length is the product of the lengths |
| NodeSelection.CrossImpliesAdded | internal/controller/install_agents.go:2704-2713 | whatever the user terms are, a node matching the product meets the expressions of some added term |
| NodeSelection.CrossMeaning | internal/controller/install_agents.go:2704-2713 | over non-empty user terms, matching the product is matching a user term and the expressions of an added term (added fields play no part) |
| NodeSelection.CrossPreservesMeaning | internal/controller/install_agents.go:2698-2715 | with non-empty, field-free added terms, distribution is conjunction of the two lists |
| NodeSelection.CrossWithEmptyTerms | internal/controller/install_agents.go:2698-2715 | for arbitrary user terms: the product matches exactly when an added term does and a user term matches or is empty |
| NodePlacement.OverrideAffinity | internal/controller/install_agents.go:2684-2716 | creates or reuses the affinity objects; the given object itself ends up holding the distributed terms |
| NodePlacement.AntiAffinityTerms | internal/controller/install_agents.go:511-531 | one `NotIn` term per GPU label in some map order, then the negation of the affinity when it has exactly one term |
| NodePlacement.AntiTermsMeaning | internal/controller/install_agents.go:511-531 | the anti-affinity list contradicts the GPU restriction; when that is negatable, it is exactly its complement |
| NodePlacement.Disjoint | internal/controller/install_agents.go:492-534 | for every request, sharing, several terms and uninterpreted operators included: once an anti-affinity term exists no node is eligible for both DaemonSets |
| NodePlacement.AntiTermsEmpty | internal/controller/install_agents.go:511-531 | exactly which requests generate no anti-affinity term |
| NodePlacement.OverlapWithoutAntiTerms | internal/controller/install_agents.go:522-530 | without one, every admitted GPU node is eligible for both |
| NodePlacement.GpuEligibility | internal/controller/install_agents.go:502-505 | for every request: among nodes meeting the node agent's own rules, exactly those with the GPU labels that reach a GPU term, the terms' fields being lost when own terms exist |
| NodePlacement.NormalEligibility | internal/controller/install_agents.go:511-534 | for every request, any number of GPU terms and any operators: exactly when some anti-affinity term matches or none exists, and, when the affinity object is shared, a GPU term is reached or an empty term slipped in |
| NodePlacement.GpuEligibleExactly | internal/controller/install_agents.go:2679-2716 | for every node, with no assumption about the own rules: the GPU DaemonSet may run exactly where all labels of the GPU selector are (it replaces the own one; without it the own labels) and the own and GPU terms are met |
| NodePlacement.NormalEligibleExactly | internal/controller/install_agents.go:511-534 | the same for the normal DaemonSet: all own labels, and, when something can be negated, a missing GPU label or a failing GPU requirement |
| NodePlacement.ReachedPlain | internal/controller/install_agents.go:2698-2715 | over field-free, non-empty GPU terms, reaching one is matching one, whatever the operators |
| NodePlacement.SeveralTermsLeaveGap | internal/controller/install_agents.go:522-530 | with a GPU label and several GPU terms, unshared: no node gets both DaemonSets, and exactly the nodes with the label that reach no term get neither |
| NodePlacement.Partition | internal/controller/install_agents.go:492-534 | a negatable restriction gives each admitted node to exactly one DaemonSet if and only if the affinity object is not shared with GPU terms, or the node meets those terms |
| NodePlacement.SharingEmptiesNormal | internal/controller/install_agents.go:787 | with a shared affinity object and no GPU label, the normal DaemonSet is eligible nowhere |
| NodePlacement.OrderIrrelevant | internal/controller/install_agents.go:514-520 | eligibility does not depend on the order the selector map is visited in |
| NodePlacement.OrderIsStored | internal/controller/install_agents.go:514-520 | the stored list does: with two labels or more, another order stores another placement |
| NodePlacement.SingleOrder | internal/controller/install_agents.go:514-520 | with at most one label there is only one order |
| ContainerMerge.IndexDesired | internal/controller/install_agents.go:2737-2742 | the desired containers by name, the last of a name winning, defaults applied |
| ContainerMerge.WalkExisting | internal/controller/install_agents.go:2753-2770 | the walk over live containers: what it keeps, refreshes and drops, and which desired ones are left |
| ContainerMerge.AppendRest | internal/controller/install_agents.go:2772-2775 | the left-over containers are appended in some map order |
| ContainerMerge.MergeContainers | internal/controller/install_agents.go:2737-2776 | the whole merge is a possible outcome of the step relation `Merged`; a live container that is not desired stays exactly when it has none of the operator's three names |
| ContainerMerge.MergedNames | internal/controller/install_agents.go:2737-2776 | unique names stay unique; the names are the desired ones and the live unmanaged ones, live order first |
| ContainerMerge.MergedForeign | internal/controller/install_agents.go:2766-2769 | containers neither desired nor the operator's survive unchanged in their relative order |
| ContainerMerge.MergedKeepsUsers | internal/controller/install_agents.go:2747-2770 | exactly the live containers that are neither desired nor called `dcgm-exporter`, `dcgm-hostengine` or `whatap-node-agent` stay, unchanged and in live order |
| ContainerMerge.SidecarStays | internal/controller/install_agents.go:2747-2770 | a live container that is not desired stays unchanged exactly when it has none of those three names |
| ContainerMerge.MergedContent | internal/controller/install_agents.go:2754-2763 | each desired container is as desired with defaults, except that the node agent keeps its live resources when the user sets none |
| ContainerMerge.MergeFixpoint | internal/controller/install_agents.go:2737-2776 | repeating the merge with the same desired list changes nothing, whatever the map orders |
| ContainerMerge.RunInvariant | internal/controller/install_agents.go:2737-2776 | over any sequence of custom-resource changes and map orders: unique names, foreign containers untouched, and after each step exactly the desired and the earlier unmanaged names |
| ContainerMerge.RunKeepsSidecar | internal/controller/install_agents.go:2737-2776 | over a whole run, a live container with none of those names that is never desired stays |
| NodeAgent.Overlay | internal/controller/install_agents.go:584-588 | pod labels override the operator's labels, in any map order |
| NodeAgent.FillMissing | internal/controller/install_agents.go:2728-2732 | live labels (and security fields) are kept only where the new ones say nothing |
| NodeAgent.RenderPlacement | internal/controller/install_agents.go:2679-2716 | the placement rendered, a given node selector replacing the own one, and what is left in the shared affinity object |
| NodeAgent.RenderSecurity | internal/controller/install_agents.go:2574-2613 | unset security fields come from the live pod, and the shared object keeps them |
| NodeAgent.RenderContainers | internal/controller/install_agents.go:2723-2787 | defaults for a new DaemonSet, the merge for a live one |
| NodeAgent.Render | internal/controller/install_agents.go:2651-2792 | the DaemonSet rendered from the live one and the custom resource, and both shared objects afterwards |
| NodeAgent.Cluster.ReconcileNodeAgentDaemonSet | internal/controller/install_agents.go:2640-2794 | what is stored, and what the shared objects then hold, for a read failure, a write failure, a write that takes effect and still errs, and success |
| NodeAgent.Cluster.CreateSplit | internal/controller/install_agents.go:498-534 | the two passes submit the GPU and the normal placement of the same request, the second reading what the first wrote |
| NodeAgent.Cluster.CreateSingle | internal/controller/install_agents.go:535-554 | the GPU DaemonSet is deleted (failure ignored) and a single one submitted with the node agent's own placement |
| NodeAgent.Cluster.CreateOrUpdateNodeAgent | internal/controller/install_agents.go:457-564 | the whole step: which DaemonSets are submitted with which placement and security, when it reports success, and what the cluster holds afterwards whichever call failed |
| NodeAgent.RequestExactly | internal/controller/install_agents.go:492-501 | the request behind both placements, field by field of the custom resource, nil pointers included, and exactly when there are two DaemonSets |
| NodeAgent.StoredEligibility | internal/controller/install_agents.go:502-534 | where the two DaemonSets stored by a step without failures may run, for every node, whether or not it meets the own rules |
| NodeAgent.SingleEligibility | internal/controller/install_agents.go:535-554 | without a restriction: one DaemonSet, running exactly where the own rules say |
| NodeAgent.FirstWriteFailed | internal/controller/install_agents.go:502-505 | after a failed write of the GPU DaemonSet the normal one is left alone |
| NodeAgent.DeletionFailed | internal/controller/install_agents.go:535-554 | after a failed deletion of the GPU DaemonSet the single one is written beside it |
| NodeAgent.RenderedNames | internal/controller/install_agents.go:2718-2790 | container names are unique and the operator's containers are present exactly as desired |
| NodeAgent.RenderedContent | internal/controller/install_agents.go:2718-2790 | every container of a rendered DaemonSet is what the custom resource asks for under its name (the node agent keeping live resources when the user sets none), or a live one, unchanged |
| NodeAgent.RenderedKeepsSidecars | internal/controller/install_agents.go:2747-2770 | a rendered DaemonSet has exactly the sidecars users added to the live one, unchanged and in order |
| NodeAgent.TemplateLabels | internal/controller/install_agents.go:2724-2732 | every label of a rendered template: the pod labels, else the operator's two, else what was live |
| NodeAgent.DefaultSecurity | internal/controller/install_agents.go:793-800 | the security fields of a pod the custom resource says nothing about: four defaults over what was live |
| NodeAgent.ExactlyOneExporter | internal/controller/install_agents.go:495-554 | from any earlier state, after a step without failures the exporter is in exactly one DaemonSet when GPU monitoring is on, in none when off, and it is the one whose `name` label the scrape target selects unless the pod labels redefine it |
| NodeAgent.GpuLabelNeverRemoved | internal/controller/install_agents.go:2724-2732 | exactly when a template carries the GPU label: an earlier one is never removed |
| NodeAgent.SubmittedDisjoint | internal/controller/install_agents.go:492-534 | disjointness for the DaemonSets as submitted, under a condition on the request alone |
| NodeAgent.StoredDisjoint | internal/controller/install_agents.go:492-534 | the same of the DaemonSets stored by a step without failures |
| NodeAgent.SecondWriteFailed | internal/controller/install_agents.go:502-534 | what a failed write of the normal DaemonSet leaves, and exactly which nodes then get both |
| NodeAgent.RenderFixpoint | internal/controller/install_agents.go:2718-2792 | rendering again from the same resource changes nothing, whatever the map orders |
| NodeAgent.SecurityLeaks | internal/controller/install_agents.go:2574-2613 | each security field of the normal DaemonSet: the resource's, else the live GPU DaemonSet's, else its own |
| NodeAgent.StepFixpoint | internal/controller/install_agents.go:457-564 | the whole step repeated with the same resource and label order leaves both DaemonSets as they are |
| DcgmEnv.FilterInPlace | internal/controller/install_agents.go:947-953 | the filter that reuses the slice's storage keeps exactly the entries with another name, in order |
| DcgmEnv.ReplaceInPlace | internal/controller/install_agents.go:957-964 | the first entry of the name is replaced in place, or the absence of one is reported |
| DcgmEnv.ApplyUserEnvs | internal/controller/install_agents.go:938-969 | the loop over one buffer is the fold of the three updates |
| DcgmEnv.FoldIsOverlay | internal/controller/install_agents.go:938-969 | the fold is a map overlay: unique names, and each name carries its last user entry or its default, a clearing last entry meaning absence |
| DcgmEnv.DefaultsUnique | internal/controller/install_agents.go:883-936 | the defaults never repeat a name, whatever options are set |
| DcgmEnv.DefaultHostEngine | internal/controller/install_agents.go:922-936 | a host-engine address is a default exactly when the sidecar is on or an address was given |
| DcgmEnv.DefaultsExactly | internal/controller/install_agents.go:883-936 | every default by name, the sidecar winning over a remote address, and no other name |
| DcgmEnv.DecimalReads | internal/controller/install_agents.go:929-929 | a port is written without leading zeros and reads back as itself |
| DcgmEnv.QuotedMatches | internal/controller/install_agents.go:900-900 | the quoted group label is a regular expression that matches the label and nothing else |
| DcgmEnv.UserEnvExactly | internal/controller/install_agents.go:943-955 | only an empty plain host-engine address removes a name; every other last user entry is what its name carries |
| DcgmEnv.EmbeddedModeExactly | internal/controller/install_agents.go:943-955 | the final list has no host-engine address exactly when the last user entry is empty, or nobody gives one |
| DcgmEnv.ExporterEnvUnique | internal/controller/install_agents.go:883-969 | the exporter's list has unique names, each with its last user entry or its default |
| DcgmEnv.ExporterEnvVars | internal/controller/install_agents.go:882-969 | the whole computation over one buffer, with exactly that outcome for every name |
| EnvOverlay.MergeEnvVars | internal/webhook/v2alpha1/utils.go:61-80 | the two loops with a name set compute the existing-wins merge |
| EnvOverlay.UpsertEnvVars | internal/webhook/v2alpha1/utils.go:94-115 | drops every overridden name, appends all named overrides |
| EnvOverlay.CombineEnvVars | internal/webhook/v2alpha1/utils.go:125-135 | splits the incoming entries by the force predicate, upserts the forced and merges the rest |
| EnvOverlay.UpsertEntries | internal/webhook/v2alpha1/utils.go:94-115 | for every name: exactly the overriding entries if there are any, else exactly the base ones |
| EnvOverlay.MergeEntries | internal/webhook/v2alpha1/utils.go:61-80 | for every name: exactly the base entries if there are any, else the first extra one |
| EnvOverlay.CombineEntries | internal/webhook/v2alpha1/utils.go:125-135 | for every name: forced incoming entries, else base entries, else the first incoming one |
| EnvOverlay.CombineWinner | internal/webhook/v2alpha1/utils.go:117-135 | the first occurrence of every name: forced incoming, else base, else incoming |
| EnvOverlay.CombineIdempotent | internal/webhook/v2alpha1/utils.go:125-135 | combining the same entries again changes no entry of any name |
| EnvOverlay.CombineKeepsBase | internal/webhook/v2alpha1/utils.go:125-135 | base entries that no forced entry overrides come first, with order and multiplicity |
| Injection.FindEnvValueByKeys | internal/webhook/v2alpha1/utils.go:16-25 | the nested search with early return |
| Injection.FirstAliasMeaning | internal/webhook/v2alpha1/utils.go:16-25 | the value of the first key present in key-priority order, none exactly when no key is present |
| Injection.ConnectionEnvVars | internal/webhook/v2alpha1/utils.go:27-49 | license, host and port from the user's aliases or the operator's settings, under the language's names |
| Injection.InjectJavaToolOptions | internal/webhook/v2alpha1/injector_java.go:63-83 | the first entry is written in the container's own storage, or a new entry is appended |
| Injection.AugmentFirstMeaning | internal/webhook/v2alpha1/injector_java.go:63-83 | only the first `JAVA_TOOL_OPTIONS` changes; all other entries and all names stay |
| Injection.InjectJavaEnvVars | internal/webhook/v2alpha1/injector_java.go:10-61 | the Java injector, the write into the container's storage visible to its later reads |
| Injection.JavaEntries | internal/webhook/v2alpha1/injector_java.go:10-61 | for every name: the forced entry, else the container's own (option appended), else the operator's addition |
| Injection.GetAppConfig | internal/webhook/v2alpha1/injector_python.go:117-132 | the last user value of each application setting |
| Injection.InjectSearchPath | internal/webhook/v2alpha1/injector_nodejs.go:90-109 | prepends to the first entry unless it has an indirect value, appends when there is none |
| Injection.WithPathEntries | internal/webhook/v2alpha1/injector_nodejs.go:90-109 | what it does to the entries of every name: only the first one of its own changes, and only without an indirect value |
| Injection.InjectScriptEnvVars | internal/webhook/v2alpha1/injector_python.go:9-88 | the Python and Node.js injectors |
| Injection.DialectsPlaced | internal/webhook/v2alpha1/constants.go:3-58 | no two names a script injector produces coincide, for either language |
| Injection.ScriptEntries | internal/webhook/v2alpha1/injector_nodejs.go:9-87 | for every name: the forced entry, else the container's own, else the operator's addition |
| Injection.InjectLanguageSpecificEnvVars | internal/webhook/v2alpha1/process_deployments.go:164-189 | language dispatch, then the combine with the user's entries |
| Injection.LanguageEntries | internal/webhook/v2alpha1/process_deployments.go:167-178 | the same law for whichever injector runs, and no change for an unknown language |
| Injection.FinalEntries | internal/webhook/v2alpha1/process_deployments.go:164-189 | every entry of every name after both stages: forced, unmanaged user, container, operator addition, first user entry |
| Injection.FinalExactly | internal/webhook/v2alpha1/process_deployments.go:164-189 | the final environment written out for every language and every name: the forced table, else user entries outside the 25 listed names, else the container's own, else the added table, else the first user entry |
| Injection.ForcedExactlyOnce | internal/webhook/v2alpha1/utils.go:152-163 | each forced key occurs exactly once, with the operator's entry, whatever the container and the user set |
| Injection.ConnectionExactlyOnce | internal/webhook/v2alpha1/utils.go:27-49 | license, host and port occur exactly once with the first alias hit in priority order, or the operator's setting |
| Injection.UserEntryWins | internal/webhook/v2alpha1/process_deployments.go:183-188 | a user entry whose name is none of the 25 listed ones: exactly the user's entries remain, in order |
| Injection.ManagedEntryStays | internal/webhook/v2alpha1/utils.go:169-176 | a user entry with one of the 25 listed names never displaces one the injector left |
| Injection.MetadataExactlyOnce | internal/webhook/v2alpha1/injector_python.go:42-48 | node address, node name, pod name and the micro flag occur exactly once, each from its own field |
| Injection.AddedOnlyIfUnset | internal/webhook/v2alpha1/utils.go:61-80 | everything else the operator adds occurs exactly once when the container does not set it, and otherwise the container's entries stay |
| Injection.ApplicationName | internal/webhook/v2alpha1/injector_python.go:12-17 | the reported name: the container's own entries, else the user's last non-empty one, else the container's name |
| Injection.AgentPathOnlyIfUnset | internal/webhook/v2alpha1/injector_java.go:14-34 | the agent's location is added once to containers that do not set it |
| Injection.SearchPathOnlyIfUnset | internal/webhook/v2alpha1/injector_python.go:56-57 | a search path is set exactly when the container does not set the variable; an existing value is never extended |
| Injection.ToolOptionsAugmented | internal/webhook/v2alpha1/injector_java.go:63-83 | the agent option ends up appended to the first `JAVA_TOOL_OPTIONS`, or alone, and no user entry displaces it |
| Injection.ToolOptionsElsewhere | internal/webhook/v2alpha1/process_deployments.go:167-187 | other languages leave `JAVA_TOOL_OPTIONS` as it is; a user entry counts only when there is none |
| Injection.AcceptedExactly | internal/webhook/v2alpha1/injector_java.go:63-83 | for any language: the final entries have at most one of a value and a source exactly when Java does not append to a variable with a source |
| PodPatch.InjectedEnv | internal/webhook/v2alpha1/process_deployments.go:373-373 | one container's environment, injected over the storage of its own list |
| PodPatch.PodSpec.EnsurePullSecrets | internal/webhook/v2alpha1/process_deployments.go:210-231 | missing target secrets are appended once each |
| PodPatch.PodSpec.MergeConfig | internal/webhook/v2alpha1/process_deployments.go:243-359 | config and plugin volumes that do not collide, the init container's mounts and command |
| PodPatch.PodSpec.PatchEachContainer | internal/webhook/v2alpha1/process_deployments.go:371-386 | every container gets its environment and the agent mount, in place |
| PodPatch.PodSpec.PatchPodTemplateSpec | internal/webhook/v2alpha1/process_deployments.go:200-386 | the whole patch of the pod spec |
| PodPatch.AddSecretsMeaning | internal/webhook/v2alpha1/process_deployments.go:210-231 | old secrets are a prefix, uniqueness is kept, the set is the union |
| PodPatch.AddSecretsInOrder | internal/webhook/v2alpha1/process_deployments.go:210-231 | secrets are taken in order, each one the list does not have yet |
| PodPatch.VolumesMeaning | internal/webhook/v2alpha1/process_deployments.go:269-369 | old volumes are a prefix, uniqueness is kept, every mounted volume exists |
| PodPatch.PatchedWellFormed | internal/webhook/v2alpha1/process_deployments.go:200-386 | the patched pod: prefixes and uniqueness kept, and every mount the patch adds names a volume of the pod |
| PodPatch.PatchedVolumes | internal/webhook/v2alpha1/process_deployments.go:243-369 | the volumes of the patched pod: its own, and each of three whose name was free, with their contents |
| PodPatch.PatchedContainer | internal/webhook/v2alpha1/process_deployments.go:371-386 | a patched container is the container with its injected environment and the agent volume mounted last, nothing else changed |
| PodPatch.InitContainer | internal/webhook/v2alpha1/process_deployments.go:13-160 | name, image, mounts, security and resources of the added init container, with the precedence of each |
| PodPatch.InitEnvironment | internal/webhook/v2alpha1/process_deployments.go:69-147 | its environment, entry by entry, for every language |
| PodPatch.InitCommand | internal/webhook/v2alpha1/process_deployments.go:349-358 | the init command is overridden exactly when a config or plugin volume was injected, and the assembled script, spelled out, copies the configuration before the image's own script and the plugins after it |
| PodPatch.InitAgreesWithContainers | internal/webhook/v2alpha1/process_deployments.go:69-147 | the init container and every application container carry the same license, host and port, and no container has a second value |
| PodPatch.AgentVolumeIsScratch | internal/webhook/v2alpha1/utils.go:51-58 | for every pod: exactly when it has the scratch volume for the agent files |
| Admission.MatchesLabelExpression | internal/webhook/v2alpha1/utils.go:207-260 | a label requirement holds as a node-selector requirement would, and an unknown operator never does |
| Admission.MatchesSelector | internal/webhook/v2alpha1/utils.go:179-205 | all labels and all expressions of the pod selector |
| Admission.MatchesNamespaceSelector | internal/webhook/v2alpha1/utils.go:263-290 | names (none meaning any), labels and expressions of the namespace selector |
| Admission.FirstFromMeaning | internal/webhook/v2alpha1/whatapagent_webhook.go:126-176 | the chosen target is the lowest-index enabled one whose selectors match; none is chosen exactly when none applies |
| Admission.ChoiceExactly | internal/webhook/v2alpha1/whatapagent_webhook.go:84-150 | target `i` is chosen if and only if the resource is there and switched on, `i` is enabled and its pod and namespace selectors, unfolded, accept the pod, and no earlier target does |
| Admission.Pod.TargetApplies | internal/webhook/v2alpha1/whatapagent_webhook.go:127-150 | the checks of one target, in order, decide whether it applies |
| Admission.Pod.Default | internal/webhook/v2alpha1/whatapagent_webhook.go:67-182 | one admission: guards, target loop, patch and annotations |
| Admission.AdmitExactly | internal/webhook/v2alpha1/whatapagent_webhook.go:105-171 | a marked pod, or one no target is for, comes back unchanged; otherwise its spec is patched for the chosen target, its three annotations are set and nothing else changes |
| Admission.AtMostOnce | internal/webhook/v2alpha1/whatapagent_webhook.go:105-176 | over any calls with resource and namespaces changing: unchanged until a target applies, patched then from the original pod, never again |
| Admission.ChangesOnce | internal/webhook/v2alpha1/whatapagent_webhook.go:105-111 | after a call that changed the pod, no later call does, whatever it started from |
| Admission.ToolOptionsAtMostOnce | internal/webhook/v2alpha1/injector_java.go:63-83 | after any run, for any language or none: `JAVA_TOOL_OPTIONS` is as it was, or as one injection for the first applying target makes it, so the agent option was appended at most once |
| OrderedYaml.SortMeaning | internal/controller/install_agents.go:41-41 | the sort used is strictly increasing and keeps the keys |
| OrderedYaml.LessExactly | internal/controller/install_agents.go:41-41 | the order of keys: smaller at the first difference, or a proper prefix |
| OrderedYaml.ToOrderedYAML | internal/controller/install_agents.go:34-78 | the result is canonical, for every value and every map order at every level |
| OrderedYaml.CanonicalUnique | internal/controller/install_agents.go:31-33 | a value has one canonical form: the result does not depend on map order |
| OrderedYaml.CanonicalIdempotent | internal/controller/install_agents.go:1994-1994 | converting an ordered value again changes nothing |
| OrderedYaml.CanonicalTidy | internal/controller/install_agents.go:34-78 | no map is left at any depth and keys strictly increase at every level |
| OrderedYaml.RoundTrip | internal/controller/install_agents.go:34-78 | reading the ordered lists back as maps gives the input |
| TlsSecrets.ConvertEndpoints | internal/controller/install_agents.go:1242-1324 | each endpoint becomes its map, key by key |
| TlsSecrets.PutFile | internal/controller/install_agents.go:1286-1292 | an explicit file, else the path of the secret, else no entry |
| TlsSecrets.ConvertTls | internal/controller/install_agents.go:1283-1310 | the certificate settings, each file by that rule |
| TlsSecrets.EndpointTls | internal/controller/install_agents.go:1283-1310 | an endpoint's map holds certificate settings exactly when it has any, and exactly those |
| TlsSecrets.TlsSettings | internal/controller/install_agents.go:1283-1310 | every TLS setting of an endpoint, entry by entry, and no others |
| TlsSecrets.EndpointSettings | internal/controller/install_agents.go:1242-1324 | every entry of an endpoint map, and no others |
| TlsSecrets.Secrets.Add | internal/controller/install_agents.go:2005-2015 | one reference joins the collected ones, listed once |
| TlsSecrets.Secrets.AddTLSSecretsFromEndpoints | internal/controller/install_agents.go:2004-2024 | the collected keys are exactly the references so far and those of the endpoints, each once |
| TlsSecrets.CollectAllTLSSecrets | internal/controller/install_agents.go:2040-2060 | exactly the references of inline targets, pod monitors and service monitors, each listed once |
| TlsSecrets.RefsExactly | internal/controller/install_agents.go:2004-2060 | a reference is one that some endpoint of some list makes for one of its three certificate settings |
| TlsSecrets.SecretVolumes | internal/controller/install_agents.go:2300-2334 | one volume per collected secret, holding that secret and its collected keys, and one mount of it under `/etc/ssl/certs/`, in some map order |
| TlsSecrets.BackedExactly | internal/controller/install_agents.go:2300-2334 | a volume of a secret holds a key, mounted so that it lies at a path, if and only if that key of that secret was collected and the path is `/etc/ssl/certs/`, the secret, the key |
| TlsSecrets.VolumeItems | internal/controller/install_agents.go:2300-2334 | the items of a volume are exactly the collected keys of the secret it holds, each once |
| TlsSecrets.VolumeNamesDistinct | internal/controller/install_agents.go:2302-2302 | distinct secrets get distinct volume names |
| TlsSecrets.CertificatePathsBacked | internal/controller/install_agents.go:1283-1306 | every certificate setting rendered for an endpoint of the collected lists is the explicit file, else the mounted file of the secret the endpoint names for that setting, else absent |
| ScrapeTargets.CheckDuplicate | internal/controller/install_agents.go:1772-1788 | labels that all equal agent labels and include an identity key, whatever order they are visited in |
| ScrapeTargets.FindField | internal/controller/install_agents.go:1798-1815 | a field of a map, or of the last pair with the key |
| ScrapeTargets.SelectorIsDuplicate | internal/controller/install_agents.go:1828-1883 | the verdict on a selector in either representation |
| ScrapeTargets.DetectDuplicate | internal/controller/install_agents.go:1792-1887 | whether any target is a duplicate, in either representation |
| ScrapeTargets.VerdictSurvivesOrdering | internal/controller/install_agents.go:1792-1887 | the verdict on the ordered form equals the one on the unordered map |
| ScrapeTargets.TargetVerdict | internal/controller/install_agents.go:1343-1744 | and equals the one on the target's own name and selector labels |
| ScrapeTargets.RenderTarget | internal/controller/install_agents.go:1343-1744 | the map of each kind of target, built key by key |
| ScrapeTargets.AutoVerdict | internal/controller/install_agents.go:1889-1990 | the automatic target in canonical form is itself a duplicate, so a second look adds none |
| ScrapeTargets.GenerateTargets | internal/controller/install_agents.go:1343-1991 | active targets in canonical form and order, plus one automatic GPU target exactly when GPU is on and none covers the agent; with GPU on, the result always holds a covering target |
| ScrapeOutput.ExpressionsWritten | internal/controller/install_agents.go:1166-1174 | match expressions in a tree: one for one, with exactly their three parts |
| ScrapeOutput.SelectorWritten | internal/controller/install_agents.go:1160-1177 | every field of a selector in a tree |
| ScrapeOutput.NamespacesWritten | internal/controller/install_agents.go:1583-1609 | every field of a namespace selector in a tree |
| ScrapeOutput.InlineWritten | internal/controller/install_agents.go:1343-1569 | every field of the tree of an inline target; empty selectors are left out |
| ScrapeOutput.MonitorWritten | internal/controller/install_agents.go:1571-1704 | every field of the tree of a monitor, its own namespace selected unless it says otherwise |
| ScrapeOutput.StaticWritten | internal/controller/install_agents.go:1706-1744 | every field of the tree of a static endpoint; it has no selectors |
| ScrapeOutput.EndpointWritten | internal/controller/install_agents.go:1242-1324 | the endpoints of a tree are the target's, one for one, with every entry |
| ScrapeOutput.AutoWritten | internal/controller/install_agents.go:1889-1990 | every field of the tree of the automatic target |
| ScrapeOutput.ActiveExactly | internal/controller/install_agents.go:1343-1347 | the targets taken are those that are not disabled inline ones, in order |
| ScrapeOutput.AutoAddedExactly | internal/controller/install_agents.go:1746-1889 | the automatic target is added if and only if GPU monitoring is on and no target that is not disabled has its name or selects by labels that are all the agent's and include one of the five identity keys |
| ScrapeTargets.OutputPathOrigin | internal/controller/install_agents.go:1242-1324 | a certificate setting found in a generated tree is that of the target's endpoint at that place |
| ScrapeTargets.OutputSetting | internal/controller/install_agents.go:1283-1310 | and it is there exactly when the endpoint has that setting, with the same value |
| ScrapeTargets.GeneratedPathsBacked | internal/controller/install_agents.go:2297-2334 | every certificate setting in the generated trees of inline targets and monitors is the explicit file, else the mounted file of the secret the endpoint at that place names for it, else absent |
| ScrapeTargets.TargetOutputLabels | internal/controller/install_agents.go:1343-1744 | a generated target selects by exactly the labels of the target it came from |
| ScrapeTargets.CoveringSelectsExporter | internal/controller/install_agents.go:1771-1788 | covering labels select every pod that carries the agent labels |
| ScrapeTargets.AutoSelectsExporterExactly | internal/controller/install_agents.go:1909-1913 | the generated automatic target selects such pods exactly when the pod labels do not rename them |
| ScrapeTargets.ExporterPods | internal/controller/install_agents.go:579-588 | the stored pods of the DaemonSet that carries the exporter have the agent labels the generator computes |
| ScrapeTargets.ScrapedExactly | internal/controller/install_agents.go:1747-1991 | pods with the agent labels are selected by the match labels of a generated target if and only if an active target's own match labels select them, or no active target covers the agent and the pod labels do not rename them (match expressions and namespaces play no part) |
| ScrapeTargets.CoveringScrapes | internal/controller/install_agents.go:1771-1788 | an active target that covers the agent by its labels selects them |
| ScrapeTargets.NameSuppressesScraping | internal/controller/install_agents.go:1817-1820 | one enabled target with the automatic name and no selector: no automatic target, and nothing selects the exporter |
| ScrapeTargets.InstallAndGenerate | internal/controller/whatapagent_controller.go:502-571 | for one custom resource, with GPU on and no failure: the stored DaemonSet the generator names holds the exporter, and the match labels of a generated target select its stored pods under exactly that condition (match expressions and namespaces play no part) |
| ApiServer.Api.Get | internal/controller/whatapagent_controller.go:388-391 | a read returns the stored resource after the environment's edit, reports absence, or fails |
| ApiServer.Api.UpdateFinalizer | internal/controller/whatapagent_controller.go:395-400 | a write of the finalizer succeeds only on the version read; a resource marked for deletion goes with its last finalizer |
| ApiServer.Api.UpdateStatus | internal/controller/whatapagent_controller.go:428-428 | a write of the status succeeds only on the version read, may take effect and still fail, and is logged with the resource it left |
| ApiServer.Api.Store | internal/controller/whatapagent_controller.go:61-74 | create-or-update: stored, not stored, or stored although an error came back, and logged whenever it is stored |
| ApiServer.Api.GetAndDelete | internal/controller/whatapagent_controller.go:82-89 | the cleanup pattern: a failed read is taken as nothing to delete, and every removal is logged |
| Reconcile.StepThen | internal/controller/whatapagent_controller.go:430-589 | two finished steps are one step for the joined script |
| Reconcile.StepFailed | internal/controller/whatapagent_controller.go:438-441 | a failed step has stored a part of its script and begun nothing after it |
| Reconcile.StoreWithRetry | internal/controller/install_agents.go:2202-2471 | as many attempts as given, giving up only after the last one failed; success means stored |
| Reconcile.InstallDaemonSets | internal/controller/install_agents.go:498-554 | the GPU DaemonSet and then the normal one, or the normal one after an attempt to delete the GPU one |
| Reconcile.InstallNodeAgent | internal/controller/install_agents.go:492-563 | the DaemonSets and then the exporter service: stores in that order, none after a failure |
| Reconcile.InstallOpenAgent | internal/controller/install_agents.go:2072-2474 | access objects, configuration, deployment: stores in that order, none after a failure |
| Reconcile.InstallAll | internal/controller/whatapagent_controller.go:430-589 | all steps: stores in the order of the script, under the finalizer, none after a failure; removals only of unneeded objects; the log accounts for the objects; success means all were stored, and without faults exactly the unneeded ones are gone |
| Reconcile.ScriptObjects | internal/controller/whatapagent_controller.go:430-589 | which objects a specification needs, object by object |
| Reconcile.ScriptOrdered | internal/controller/whatapagent_controller.go:430-589 | they are stored in one fixed order, none twice |
| Reconcile.MarkInstalled | internal/controller/whatapagent_controller.go:591-608 | at most one success is declared, as the last write, with the generation the resource then has; without faults it is reached if there are fewer edits than attempts |
| Reconcile.CleanupAgents | internal/controller/whatapagent_controller.go:178-228 | only removals, errors ignored; without faults everything but the GPU DaemonSet and the exporter service goes, and of the agents and the webhook each failed call leaves at most one object |
| Reconcile.ReconcileDeletion | internal/controller/whatapagent_controller.go:401-416 | clean up only while the finalizer is there, then release the resource even when cleanup failed; no error means it is gone or held by other finalizers alone; what failed calls may leave behind |
| Reconcile.ReconcileInstall | internal/controller/whatapagent_controller.go:420-623 | stores follow the script of the given specification and removals are of unneeded objects, the log accounting for the cluster; success is declared only at the end, after all of the script; without it an earlier success is withdrawn unless the status writes fail |
| Reconcile.Reconcile | internal/controller/whatapagent_controller.go:384-624 | one pass under arbitrary faults and edits: everything stored, removed and declared is for the resource read first, and the log accounts for the cluster; the exact objects without faults, and success under at most four edits |
| Reconcile.ObservedExactly | internal/controller/whatapagent_controller.go:592-604 | a declared success carries the generation read plus one per change since, which is the installed one if and only if nobody changed the specification in between |
| Reconcile.SuccessInstalled | internal/controller/whatapagent_controller.go:430-604 | whatever failed on the way, a declared success means every object of the script is in the cluster, for the specification the pass read |
| Reconcile.SuccessIsCurrent | internal/controller/whatapagent_controller.go:420-428 | a success found after an installing pass is its own when its first status write took effect, or nobody edited and its last call worked: everything needed is then in the cluster |
| Reconcile.ObservedOnlyBySuccess | internal/controller/whatapagent_controller.go:591-604 | a pass that declares no success leaves the observed generation as it was |
| Reconcile.PassFrame | internal/controller/whatapagent_controller.go:384-624 | what any pass can do to an object, failing ones included: create or change it only for the specification read, when needed; remove it only when not needed, or in a deletion |
| Reconcile.InstalledExactly | internal/controller/whatapagent_controller.go:430-589 | the fate of every object in an installing pass without faults: stored for the specification, left as it was, or gone |
| Reconcile.CleanedExactly | internal/controller/whatapagent_controller.go:178-228 | the fate of every object in a deletion without faults under the finalizer: the GPU DaemonSet and the exporter service stay if they were there, all others go |
| Reconcile.CalmPass | internal/controller/whatapagent_controller.go:384-624 | both, for a whole pass without faults and edits |
| Reconcile.NewerThanInstalled | internal/controller/whatapagent_controller.go:592-604 | for any resource and any change while the pass runs: the old specification is installed and the new generation declared observed |
| Reconcile.Run | internal/controller/whatapagent_controller.go:384-624 | any number of passes is a chain of passes, each from where the previous one stopped |
| Reconcile.RunSafety | internal/controller/whatapagent_controller.go:384-624 | every event of a run belongs to a pass and is justified by the resource that pass read: stores are of the next object of its script and removals of objects it does not need or of a deletion, all under the finalizer; a success ends its pass after all of its script was stored within it |
| Reconcile.RunReplays | internal/controller/whatapagent_controller.go:384-624 | the objects after a run are the ones before it with the events of the run replayed |
| Reconcile.RunCreated | internal/controller/whatapagent_controller.go:393-400 | every object that exists or changed since the start of a run was stored so by a justified event, under the finalizer |
| Reconcile.RunRemoved | internal/controller/whatapagent_controller.go:384-624 | every object that disappeared was removed by a justified event |
| Reconcile.RunAccounted | internal/controller/whatapagent_controller.go:420-427 | a success status found after a run was there before, or was declared by one of its passes with that generation |
| Reconcile.AgentsDependOnSpecAlone | internal/controller/whatapagent_controller.go:481-589 | with the node agent enabled, which agents exist after a calm pass depends on the specification alone |
| Reconcile.DisabledNodeAgentKeepsGpu | internal/controller/whatapagent_controller.go:93-107 | with the node agent disabled, the GPU DaemonSet is left as it was |
| Reconcile.PassIdempotent | internal/controller/whatapagent_controller.go:384-624 | a second calm pass leaves the objects as the first did |

## Left out

- EnvOverlay.MergeEnvVars: works on values; Go's reuse of spare slice capacity by `append` is modelled only for the two loops that write through a slice in place, the Java option and the exporter's buffer.
- Injection.InjectScriptEnvVars: one parametric injector stands for the Python and the Node.js one, which differ only in names and search paths.
- OrderedYaml.ToOrderedYAML: the library sort is an insertion sort over UTF-8 byte order; the byte text of the rendered YAML is not modelled.
- ScrapeTargets.GenerateTargets: relabelling rules, basic authentication and authorization are values rendered elsewhere; the namespace of the automatic target is a parameter; label sanitising is not modelled.
- ScrapeTargets.GeneratedPathsBacked: covers inline targets, pod monitors and service monitors; the code mounts nothing for static endpoints.
- NodePlacement.Partition: assumes at most one GPU affinity term, of set operators without fields; beyond that the code does not negate the restriction, and `NodePlacement.NormalEligibility` says what it does instead.
- NodeAgent.StepFixpoint: assumes the same label order in both steps; `NodePlacement.OrderIsStored` shows why.
- NodeAgent.RenderSecurity: a security context is a map over the ten fields the code merges; any other field is not modelled.
- NodeAgent.Render: container bodies are resources, a pull policy and an opaque rest; ports, probes, images, volumes and the metadata of the DaemonSet object itself are not modelled.
- Reconcile.Reconcile: reads are never stale, the environment never touches the operator's finalizer or the status, and ownership garbage collection does not happen; a stored object is represented by the specification it was stored for.
- ScrapeTargets.InstallAndGenerate: the node agent's and the GPU affinity are separate objects, as decoding a custom resource makes them, and live container names are unique, as the API server requires.
- The API server's own defaulting and admission, and the skipped write when an update changes nothing.
- The master-agent and open-agent deployments as such: they merge containers with simpler copies of the node agent's merge.
- `Gt` and `Lt` as numbers: they are uninterpreted facts about a node.
- Certificate generation, environment caching, manager setup and the contents of the webhook configuration.
- The GPU memory check: one subtraction and one comparison around HTTP and JSON.
- Logging, events, metrics, back-off sleeps and requeue intervals.
- The validators and `wrapPythonCommand`, which the live path does not call.
