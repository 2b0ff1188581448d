# KBeacon: a verified model

KBeacon watches a Kubernetes cluster and keeps, in memory, a graph from workloads to the Secrets they use. This
project models how that graph comes about and what is asked of it, and proves properties of the model.

| part | files | what is modelled |
|---|---|---|
| graph cache | `Ids`, `Criticality`, `Merge`, `GraphSpec`, `Tally`, `Cache`, `Ambiguity` | the three string keys and where they blur; the class `Cache` with `ApplySnapshot` and the read-only queries, loops in any map order; `GraphSpec.Apply`, the same snapshot as a function without loops or order |
| laws of the graph | `Counting`, `Consistency`, `History`, `Laws`, `Derived`, `Premerge`, `Provenance`, `QuerySpec`, `Queries`, `Answers` | one invariant of every reachable graph; double counting; what is remembered over whole runs; idempotence, order independence, monotone impact; every record from the snapshot's inputs alone; queries against stored records, against each other and against their own answers |
| extraction | `Text`, `Annotations`, `Listings`, `Accounts`, `Extractor`, `Modes`, `Metadata`, `Places`, `Connectors`, `Pipeline` | the annotation grammar, references of Pod specs, Ingresses and annotations, pull Secrets of service accounts, the `secretRef` scan of Connectors, metadata of annotations and labels, discovery modes, and the theorem from specifications to graph edges |
| owner resolution | `OwnerResolution`, `Rebuild`, `EndToEnd` | the owner index as a class, the passes of a rebuild, controller chains, and the theorems from listed objects to the graph |
| rebuild protocol | `Protocol` | handlers, the one-slot channel, the debouncing consumer and the readiness guard as a timed transition system over all interleavings |
| clients | `SnapshotDiff`, `Documents`, `Paging` | reading, indexing and comparing exported snapshots; page walking and the nodes of a page |

`Basics`, `Ordering`, `Text` and `Counting` hold small definitions used throughout. `dafny verify dfyconfig.toml`
checks the whole project.

## How the source is read

- Times are naturals with 0 for the zero time. The impact score is a natural: every term of it is an integer. The change
  counter is a 64-bit word and wraps.
- The order in which Go ranges over a map is arbitrary here too (`:|` picks the next key), so what is proved of a loop
  holds in every order. `sort.Slice` on distinct keys is the sorted sequence of those keys.
- Each locked method of the cache is one atomic step.
- A workload is *well named* when its namespace and kind hold no `/` and its namespace, kind and name hold no `|`; a
  Secret when its namespace holds no `/`, which extraction ensures of every reference of a Pod spec, an Ingress or an
  annotation. The keys of the Secrets that the cluster lists hold no `|`. Kubernetes guarantees all of this of its
  objects' names. What annotations name may be anything, `|` included; clusters may be any strings. A graph is
  *consistent* when keys fit their records, both ends of every edge exist, an edge is resolved exactly when its Secret exists, a Secret
  that does not exist is named by some edge, and every stored count and score is the one the edges give.
- A snapshot is *prepared* when its workloads are distinct and well named, each one's edges are merged, and edges leave
  owner and criticality to their workload, as extraction does. A Secret's *users* are the inputs with an edge that names it.
- The rebuild protocol lets a rebuild read the watched kinds in any order, which covers the fixed order of the code.

## Where the code falls short of a plain statement

- **Edge keys collide**: the annotation `a|b/c,a/b|c` lists two Secrets with one edge key (`Ambiguity.EdgeIDCollides`).
  Under any workload, Secrets of two namespaces can share a key if and only if one namespace with a `|` after it begins
  the other (`Ids.EdgeIDNamesSecret`). Of Secrets that share a key only one keeps an edge of its own: each Secret that
  counts has one exactly when no two that count share a key (`Pipeline.OwnEdgesExactly`), for which it is enough that
  no two namespaces of the workload's references collide. A shared edge can also be hybrid although no Secret is named
  both ways: a Pod in `a` that names `b|c`, annotated `a|b/c` (`Ambiguity.HybridBlurs`). Edges are hybrid for exactly the
  Secrets named both ways if and only if, ignored Secrets aside, every Secret that the specification names and that
  shares a key with one that the annotations list is listed itself (`Modes.HybridExactly`). Consistency and all counts
  hold all the same.
- **The record of a missing Secret** depends on the order in which Go ranges over the edges when two references have one
  Secret key, as `c` in `a/b` and `b/c` in `a` do (`Ambiguity.MissingSecretDependsOnOrder`). A snapshot leaves one graph
  only if and only if edges that name one missing Secret agree on its reference (`Ambiguity.SnapshotIsUniqueExactly`).
  Pod specs, Ingresses and annotations never yield such references (`Pipeline.ExtractedIsUnambiguous`). The `secretRef`
  fields of a Confluent Connector can, because they take any namespace (`Connectors.OneKeyTwoTargets`).
- **Owner resolution** looks through a ReplicaSet only to a Deployment, and not at all through Pods, Ingresses and custom
  resources. A Pod is kept although its chain of controllers reaches a workload exactly when it belongs to a ReplicaSet
  that leads there by any other controller (`Rebuild.StrayExample`), or its own controller is of a kind that the owner
  index does not know and is or leads to a workload, as the driver Pod of a Spark executor is (`Rebuild.StrayPodExample`);
  in no other way does the outcome differ from the chains (`Rebuild.OwnerResolutionIsExact`). For Jobs the same holds of
  every controller other than a CronJob (`Rebuild.JobResolutionIsExact`, `Rebuild.StrayJobExample`).
- **Readiness** counts every enabled kind, but the custom-resource informers exist only with a dynamic client. With such a
  kind enabled and no client no rebuild is ever carried out (`Protocol.UnwatchedKindBlocksRebuilds`), the first update of
  any kind leaves the graph stale for good (`Protocol.StaleForGood`), and the agent comes to rest with a stale graph
  (`Protocol.RestsStale`); otherwise no update is lost (`Protocol.NoLostUpdate`). A caller of `controller.New` can set
  up the blocked configuration; the agent does not, because it creates the client whenever such a kind is enabled
  (`cmd/kbeacon-agent/main.go:119-125`).
- **Watch lists**: a rendering of a reference parses back exactly when it survives being written in that form; `WatchListRoundTrip`
  is an equivalence, with `Annotations.Survives` as the condition on each entry.
- `docs/technical-design.md` describes capped score terms, a work queue and object-form JSON annotations. The model follows
  the code, which has none of them.

## Model

| member | source | states |
|---|---|---|
| Ids.SecretIDIsInjective | internal/graph/cache.go:41-43 | Secret keys are equal exactly for the same namespace and name |
| Ids.WorkloadIDIsInjective | internal/graph/cache.go:45-47 | workload keys are equal exactly for the same namespace, name and kind up to case |
| Ids.EdgeIDIsPair | internal/graph/cache.go:30-47 | within a cluster and for any Secrets, an edge key is shared exactly by one workload and one last part; unless the Secret namespaces collide, exactly when the workload key and the Secret key both are; and if it is shared by different Secrets both their keys hold a bar |
| Ids.EdgeIDNamesSecret | internal/graph/cache.go:30-39 | under any workload, some Secrets of two different namespaces share an edge key if and only if one namespace with a bar after it begins the other |
| Ids.KeyNamesSecret | internal/graph/cache.go:30-39 | so under one workload, where namespaces do not collide, edge keys are equal exactly for the same Secret |
| Ambiguity.EdgeIDCollides | internal/discovery/annotations.go:22-58 | one annotation text lists two Secrets with different Secret keys and one edge key, whatever the workload |
| Ambiguity.HybridBlurs | internal/discovery/extractor.go:270-291 | an input on which the one edge is hybrid and no Secret is named both ways |
| Ambiguity.MissingSecretDependsOnOrder | internal/graph/cache.go:162-172 | a snapshot after which a missing Secret's reference can be either of two |
| Ambiguity.SnapshotIsUniqueExactly | internal/graph/cache.go:162-172 | for any graph and any inputs at all, a snapshot leaves one graph only if and only if edges that name one missing Secret agree on its reference |
| Criticality.NormalizeIsRankName | internal/graph/cache.go:456-490 | normalising a criticality is naming its rank |
| Criticality.MaxCriticalityIsMaxRank | internal/graph/cache.go:449-469 | the maximum is the name of the higher rank, whatever the two texts are |
| Criticality.ScoreIsMonotone | internal/graph/cache.go:492-510 | the score never falls when no count and no criticality does |
| Merge.FoldIsMerge | internal/graph/cache.go:138-147 | merging any number of edges of one key, at either level: optional is the conjunction, the mode is the common one or else hybrid, sources are concatenated in order, all else comes from the first |
| Merge.FoldOfAppend | internal/graph/cache.go:138-147 | merging two halves and then the results is merging the whole |
| Merge.MergeAllFoldsGroups | internal/graph/cache.go:138-150 | the merge loop gives a key exactly when some edge has it, and then the merge of all edges with that key |
| Merge.FilterAndMergeEdges | internal/discovery/extractor.go:610-637 | the method's output lists, in some order, the merge of all references not ignored |
| Merge.FilterAndMergeIsExact | internal/discovery/extractor.go:610-637 | that output has exactly one edge for each key of a reference not ignored, and it is the merge of all of them in order |
| GraphCache.Cache.constructor | internal/graph/cache.go:20-28 | a new cache holds the empty graph, which is consistent |
| GraphCache.Cache.ApplySnapshot | internal/graph/cache.go:49-237 | after any snapshot, in any map order, the whole new state is one that the old state and the snapshot allow, and keys fit their records; it is the order-free function Apply of them if no Secret namespace has a slash, and consistent if names are well formed |
| GraphCache.Cache.ObserveSecrets | internal/graph/cache.go:58-92 | the loop over Secret inputs: later inputs replace earlier ones, history comes from the graph before |
| GraphCache.Cache.PrepareEdge | internal/graph/cache.go:108-136 | an edge after every default, its resolution and its observation times are filled in |
| GraphCache.Cache.ObserveWorkloads | internal/graph/cache.go:94-151 | the loops over workloads and edges give the merge of all normalised edges |
| GraphCache.Cache.TallyEdges | internal/graph/cache.go:153-207 | in any order of the edges, the eight tallies are the sets and counts of the edges of each key, and every named Secret has a record, made from one of its edges if it is missing |
| GraphCache.Cache.FinishSecrets | internal/graph/cache.go:209-225 | every Secret record gets the owner, criticality, counts and score that the set of edges gives it |
| GraphCache.Cache.FinishWorkloads | internal/graph/cache.go:227-231 | every workload record gets the counts that the set of edges gives it |
| Consistency.ApplyIsConsistent | internal/graph/cache.go:49-237 | after any well-formed snapshot, from any graph at all and whatever namespaces annotations name, the graph is consistent |
| Consistency.DoubleCounting | internal/graph/cache.go:153-231 | affected workloads summed over Secrets, dependencies summed over workloads and edges are equally many; so are the unresolved ones |
| Consistency.PhantomLaw | internal/graph/cache.go:125-207 | an existing Secret has no unresolved reference; for a missing one all are, and there is one; teams and namespaces never outnumber workloads |
| History.RunIsConsistent | internal/graph/cache.go:20-237 | every graph reached by any sequence of well-formed snapshots is consistent |
| History.EdgeHistory | internal/graph/cache.go:131-136 | over any run, an edge's first observation is the snapshot that began its current unbroken presence, its last the latest one |
| History.AbsentEdge | internal/graph/cache.go:233-236 | an edge missing from the latest snapshot is not in the graph, so its history starts anew |
| History.SecretHistory | internal/graph/cache.go:58-92 | over any run, a Secret's change count is the number of adjacent differing non-empty versions in its current streak modulo 2 to the 64, and its change time that of the last of them, or else the creation time, or else the first observation |
| Laws.ApplyIsIdempotent | internal/graph/cache.go:49-237 | the same snapshot at the same time again changes nothing |
| Laws.ApplyInAnyOrder | internal/graph/cache.go:49-237 | with distinct keys, any order of Secrets, of workloads and of the edges of each gives the same graph |
| Laws.MoreWorkloadsMoreImpact | internal/graph/cache.go:138-225 | appending any workload to a snapshot keeps every Secret and lowers none of its counts, criticality or score |
| Derived.CriticalityIsHighest | internal/graph/cache.go:191-217 | in any order of the edges, a Secret is as critical as the most critical of itself and the edges naming it, under the normalised label |
| Derived.OwnerIsOwnOrSole | internal/graph/cache.go:182-212 | a Secret keeps its own team, and without one gets a team exactly when the edges naming it have exactly one |
| Provenance.EdgeIsStored | internal/graph/cache.go:108-150 | every edge of a prepared snapshot is stored with its own mode, sources, optional flag and purpose, its workload's reference, team and normalised criticality, and resolved exactly when its Secret is listed |
| Provenance.EdgeHasInput | internal/graph/cache.go:108-150 | and the graph has no other edges |
| Provenance.SecretIsFromInputs | internal/graph/cache.go:49-237 | the graph has a record of exactly the Secrets listed or used; each says, in terms of the inputs alone, the reference and type, the highest criticality among the Secret and the workloads that use it, the owner, how many workloads, teams and namespaces use it, how many references are unresolved, and the score these give |
| Provenance.ScoreTable | internal/graph/cache.go:492-510 | a score is two points for each counted workload, team, namespace and unresolved reference, plus 0, 2, 8, 18 or 30 by rank, up to 100 |
| Provenance.WorkloadIsFromInput | internal/graph/cache.go:94-106 | the graph has a record of exactly the snapshot's workloads; each says what its input says, as many dependencies as the input has edges and as many unresolved ones as it has edges to Secrets not listed |
| Premerge.MergingFirstChangesNothing | internal/discovery/extractor.go:610-637 | merging each workload's references before the snapshot gives the same graph as merging all at once |
| GraphCache.Cache.Snapshot | internal/graph/cache.go:239-274 | the view holds the records, each list in the order of its records' own keys |
| Queries.ViewIsSorted | internal/graph/cache.go:239-274 | of any graph whose keys fit its records, the view lists every record once and strictly by its own key |
| GraphCache.Cache.GetDependencyMap | internal/graph/cache.go:284-316 | the nodes are those of the workloads and then of the Secrets, in view order |
| GraphCache.Cache.GetSecretImpact | internal/graph/cache.go:318-398 | in any state of the cache, the query computes the impact defined over the set of edges that name the Secret |
| GraphCache.Cache.GetWorkloadDependencies | internal/graph/cache.go:400-447 | in any state of the cache, the query finds the first match in key order and lists the dependencies of its edges |
| Answers.ImpactListsItsEdges | internal/graph/cache.go:318-398 | an impact exists exactly for Secrets with a record or an edge; it repeats the record's counts, lists in key order exactly the edges that name the Secret and the workloads at their ends, and counts for each mode the listed edges that have it |
| Answers.TeamsCountWorkloads | internal/graph/cache.go:345-384 | in any graph, each team that owns a listed workload is listed once, in order, with the number of listed workloads it owns; these add up to the listed workloads that have a team |
| Answers.QueriesAgreeOnEdges | internal/graph/cache.go:318-447 | a workload's dependency on a Secret has the mode, flags and sources of exactly the workload's edge in that Secret's impact |
| Answers.LeastMatchIsFound | internal/graph/cache.go:400-416 | dependencies are found exactly if some workload has the namespace, the name and, if given, the kind; they are those of the one with the least key |
| Answers.WorkloadNodeTells | internal/graph/cache.go:284-298 | each workload has a node with its key, reference, title, team and criticality |
| Answers.SecretNodeTells | internal/graph/cache.go:300-310 | each Secret has a node with its key, reference, title, team, criticality and score |
| Queries.FirstEndsCover | internal/graph/cache.go:345-361 | in any graph, consistent or not, the affected workloads are those of the Secret's edges that are in the graph, each once |
| Queries.ApplyKeepsTeamsAgreed | internal/graph/cache.go:115-117 | with distinct workloads and no owner preset on edges, each edge's team is its workload's |
| Queries.ImpactMatchesRecord | internal/graph/cache.go:338-396 | edges, distinct affected workloads, the sum over modes and, if teams agree, teams in a Secret's impact are as many as its stored counts |
| Queries.DependenciesMatchRecord | internal/graph/cache.go:427-446 | a workload asked for with its kind is found, and its dependency list has the stored total and unresolved counts; no dependency is an empty record |
| Queries.WorkloadIsFound | internal/graph/cache.go:406-416 | with its kind in any case, a stored workload is the only match for its own reference |
| Queries.QueriesAreDual | internal/graph/cache.go:318-447 | a Secret is among a workload's dependencies exactly when the workload is among the Secret's affected ones |
| Annotations.ParseSecretRef | internal/discovery/annotations.go:38-58 | the step-by-step parser computes the reference of a token or its refusal |
| Annotations.TokenIsGrammar | internal/discovery/annotations.go:38-58 | a token parses to a reference exactly when it is a rendering of it in one of the four legible forms |
| Annotations.ParseWatchSecrets | internal/discovery/annotations.go:22-36 | the loop parses the trimmed tokens of a list in order, nothing for a blank list |
| Annotations.BadTokenRejects | internal/discovery/annotations.go:27-33 | one bad token anywhere rejects the list |
| Annotations.ListParsesByToken | internal/discovery/annotations.go:27-35 | a list parses to given references exactly when each token parses to its own |
| Annotations.WatchListRoundTrip | internal/discovery/annotations.go:22-58 | any list of references, each in any form with white space around it, parses back to itself exactly when every entry survives its form |
| Listings.ListedExactly | internal/discovery/extractor.go:533-551 | a comma-separated annotation lists a reference exactly if one of its trimmed tokens is it and all of them are good |
| Listings.DecodedExactly | internal/discovery/extractor.go:553-577 | the JSON annotation lists a reference exactly if one of its texts is it, whatever the others are |
| Listings.IgnoredExactly | internal/discovery/extractor.go:639-656 | a Secret is ignored exactly if the ignore annotation is good throughout and one of its tokens has the Secret's key |
| Extractor.InferPodSpecEdges | internal/discovery/extractor.go:319-425 | the loops find the references of containers, volumes, projections and pull Secrets, in source order |
| Extractor.ExplicitAnnotationEdges | internal/discovery/extractor.go:530-580 | references of the comma-separated annotation, all or none, then the good ones of the JSON annotation |
| Extractor.IgnoredSecrets | internal/discovery/extractor.go:639-656 | the ignored keys are those of the parsed list, none when it does not parse |
| Extractor.WorkloadFromPodSpec | internal/discovery/extractor.go:239-292 | the input has the given reference, its mode and the metadata of its annotations and then its labels, and its edges list the merge of the references that count in that mode and are not ignored |
| Extractor.WorkloadFromIngress | internal/discovery/extractor.go:197-237 | the same of an Ingress: its input lists the merge of the references that count and are not ignored |
| Extractor.InferIngressEdges | internal/discovery/extractor.go:294-317 | the loop finds the TLS Secrets that are named, in order |
| Extractor.MetadataValue | internal/discovery/extractor.go:690-700 | the steps find what `MetadataIsFirst` says |
| Extractor.FirstLabelValue | internal/discovery/extractor.go:702-711 | the loop finds the first label that `MetadataIsFirst` speaks of |
| Extractor.MetadataIsFirst | internal/discovery/extractor.go:690-711 | a value that is not blank comes from the annotation, else from the first key whose label is not blank; there is none exactly when all places looked at are blank |
| Accounts.PullSecretNames | internal/controller/controller.go:596-602 | the loop keeps the names that are not empty, in order |
| Accounts.CollectPullSecrets | internal/controller/controller.go:584-608 | the loop leaves a map that holds the pull Secrets of every listed account in scope that has some, and nothing else |
| Accounts.PullSecretsIgnoreOrder | internal/controller/controller.go:584-608 | that map does not depend on the order in which accounts are listed |
| Accounts.LookUpIsOwnAccount | internal/discovery/extractor.go:427-443 | what is looked up for a Pod is exactly what its own account names, if that is in scope; a blank account name means the default account |
| Connectors.ParseSecretRef | internal/discovery/confluentconnector.go:142-165 | the steps compute the name and namespace of a `secretRef`, or neither |
| Connectors.TargetIsRead | internal/discovery/confluentconnector.go:142-165 | a text names a Secret of the Connector's namespace; an object names one by its name or else its secretName, in its namespace or else the Connector's; nothing else names one |
| Connectors.ScanSecretRefs | internal/discovery/confluentconnector.go:100-140 | the recursive loops collect the references of a tree in key order |
| Connectors.ScanFindsWhatOccurs | internal/discovery/confluentconnector.go:100-140 | the scan finds a Secret exactly when a reference to it occurs somewhere in the tree, at any depth |
| Connectors.ScannedAuthenticate | internal/discovery/confluentconnector.go:100-140 | and every edge of the scan is a required, inferred reference keyed for its Connector and Secret, with the authentication section as its source |
| Connectors.OneKeyTwoTargets | internal/discovery/confluentconnector.go:142-165 | a tree that names two Secrets with one Secret key |
| Metadata.InputHasAnnotatedMode | internal/discovery/extractor.go:732-762 | an input's mode is the annotated one if that is known, else the default, or hybrid where that is empty; an object switched off is disabled, and a disabled input has no edges |
| Metadata.InputHasMetadata | internal/discovery/extractor.go:690-730 | owner, service, environment and criticality each come from their own annotation, or else from the first label under the configured or default keys |
| Metadata.OwnValueFirst | internal/discovery/extractor.go:658-688 | an object's own value comes before its Pod template's, which counts only where templates are read |
| Places.InferredStandsForPlace | internal/discovery/extractor.go:294-520 | a reference is inferred exactly from each place that is looked at; its edge is optional as the place says, and its source says which place: which container of which role and which variable, which volume, or which list |
| Places.PodIsSearchedInOrder | internal/discovery/extractor.go:319-425 | references are found section by section: containers, ephemeral containers, volumes, projections, pull Secrets |
| Places.EdgeTellsItsPlaces | internal/discovery/extractor.go:239-292 | in any mode, an extracted edge has as its sources exactly the places that count and name a Secret of its key, and is optional exactly when all of them are |
| Modes.InferredIsNamed | internal/discovery/extractor.go:319-425 | an inferred reference to a Secret exists exactly when the Pod spec names it somewhere that the options look at, or the Ingress in its TLS entries |
| Modes.ExplicitHasSecret | internal/discovery/extractor.go:530-580 | an explicit reference to a Secret exists exactly when an annotation lists it |
| Modes.HybridIsBoth | internal/discovery/extractor.go:270-291 | in hybrid mode, for any input, an edge is hybrid exactly when Pod spec and annotations both name a Secret of its key, which is its own Secret where no namespaces collide; inferred sources come first; no edge is of an ignored Secret |
| Modes.HybridMissesNothing | internal/discovery/extractor.go:270-291 | in hybrid mode, for any input, a key has an edge exactly when a Secret of that key is named either way and not ignored; where the key is clear, exactly when its own Secret is |
| Modes.HybridExactly | internal/discovery/extractor.go:270-291 | for any input, edges are hybrid for exactly the Secrets named both ways if and only if each Secret named by the specification whose key an annotated one shares is annotated too |
| Modes.SingleModeIsPure | internal/discovery/extractor.go:270-291 | infer and explicit modes yield edges of their own mode only |
| Modes.OtherModesAreEmpty | internal/discovery/extractor.go:270-291 | a disabled or unknown mode yields no edges |
| Pipeline.Extract | internal/discovery/extractor.go:239-292 | what is made of any Pod spec or Ingress is an input as the following rows take it |
| Pipeline.ExtractedIsFit | internal/discovery/extractor.go:582-608 | whatever the Pod spec and annotations hold, every extracted edge is under its workload, keyed for it, unowned, unresolved, with a mode, and its Secret namespace has no slash |
| Pipeline.ExtractedIsUnambiguous | internal/graph/cache.go:166-172 | so inputs extracted from Pod specs and Ingresses leave one graph only, whatever annotations say |
| Pipeline.ExtractedMeetsDemands | internal/discovery/extractor.go:239-292 | of a well-named workload, an extracted input is well formed and ready for merging, whatever annotations say |
| Pipeline.ExtractedHasSecret | internal/discovery/extractor.go:239-292 | in any mode, an input has an edge with a key exactly when a naming of a Secret of that key counts |
| Pipeline.OwnEdgesExactly | internal/discovery/extractor.go:610-637 | every Secret whose naming counts has an edge of its own if and only if no two that count share a key |
| Pipeline.ApartIsEnough | internal/discovery/extractor.go:610-637 | no two share a key when no two namespaces of the workload's references collide |
| Pipeline.RebuildIsConsistent | internal/controller/controller.go:613-745 | distinct extracted workloads leave a consistent graph in which teams agree, whatever annotations say |
| Pipeline.ExtractedIsPrepared | internal/controller/controller.go:613-745 | distinct extracted workloads make a prepared snapshot, of which every record is what the inputs say |
| Pipeline.GraphIsWhatIsNamed | internal/graph/cache.go:94-151 | end to end: after a rebuild the graph has an edge with a workload's key for a Secret exactly when the workload's specification or annotations name a Secret of that key in a way that counts; where the key is clear, exactly when they name that Secret |
| Pipeline.RebuildIgnoresListing | internal/controller/controller.go:556-745 | the same subjects and Secrets in any order leave the same graph at a given time, in whatever order maps are ranged over |
| EndToEnd.InputsAreDistinct | internal/controller/controller.go:613-745 | the inputs of a rebuild over any listed objects have distinct workload keys |
| EndToEnd.ObjectsLeaveConsistent | internal/controller/controller.go:556-745 | whatever objects are listed and whatever they refer to, a rebuild leaves a consistent graph in which teams agree |
| EndToEnd.GraphOfObjects | internal/controller/controller.go:556-745 | after a rebuild the graph has an edge with an object's key for a Secret exactly when the rebuild emits the object and it names a Secret of that key in a way that counts |
| EndToEnd.RebuildIgnoresOrder | internal/controller/controller.go:556-745 | in whatever order objects and service accounts are listed and maps are ranged over, a rebuild at a given time leaves the same graph |
| OwnerResolution.FindController | internal/controller/owner_resolution.go:111-123 | the first reference that is a controller with a kind and a name |
| OwnerResolution.ControllerIsFirst | internal/controller/owner_resolution.go:111-123 | a reference is the controller exactly when it is the first that is marked as controller and has a kind and a name; there is none exactly when no reference is so marked and named |
| OwnerResolution.OwnerIndex.constructor | internal/controller/owner_resolution.go:22-32 | an empty index |
| OwnerResolution.OwnerIndex.AddDeployment | internal/controller/owner_resolution.go:38-43 | adds one key and touches nothing else |
| OwnerResolution.OwnerIndex.AddStatefulSet | internal/controller/owner_resolution.go:45-50 | adds one key and touches nothing else |
| OwnerResolution.OwnerIndex.AddDaemonSet | internal/controller/owner_resolution.go:52-57 | adds one key and touches nothing else |
| OwnerResolution.OwnerIndex.AddCronJob | internal/controller/owner_resolution.go:59-64 | adds one key and touches nothing else |
| OwnerResolution.OwnerIndex.AddJob | internal/controller/owner_resolution.go:66-77 | indexes every Job, and as a workload only on demand |
| OwnerResolution.OwnerIndex.AddReplicaSet | internal/controller/owner_resolution.go:79-84 | maps one key and touches nothing else |
| OwnerResolution.OwnerIndex.ShouldIncludeJob | internal/controller/owner_resolution.go:125-136 | with all CronJobs indexed, says whether the Job's CronJob is not in scope, in terms of the objects |
| OwnerResolution.OwnerIndex.PodResolved | internal/controller/owner_resolution.go:142-192 | with all passes done, says whether the Pod's controller resolves to a workload, in terms of the objects |
| Rebuild.DeploymentPass | internal/controller/controller.go:613-627 | indexes and emits every Deployment in scope, in list order |
| Rebuild.ReplicaSetPass | internal/controller/controller.go:629-642 | indexes every ReplicaSet in scope |
| OwnerResolution.OwnerIndex.JobResolved | internal/controller/owner_resolution.go:171-186 | the look-up among indexed Jobs and then among Job workloads and CronJobs says whether the Job is in scope |
| Rebuild.JobPass | internal/controller/controller.go:707-727 | after the CronJobs, indexes every Job in scope and emits those not folded |
| Rebuild.PodPass | internal/controller/controller.go:729-745 | after all others, emits the Pods in scope that are not folded |
| Rebuild.CollectWorkloads | internal/controller/controller.go:613-745 | the passes in their order emit exactly the workloads defined over the objects in scope |
| Rebuild.EmittedIsListed | internal/controller/controller.go:613-745 | for every kind: an object counts as a workload in a chain exactly when a rebuild lists it |
| Rebuild.OwnerResolutionIsExact | internal/controller/owner_resolution.go:142-192 | over chains through every kind, and whatever custom resources are workloads too: dropping a Pod agrees with its controller chain reaching a workload exactly when neither a stray ReplicaSet nor a stray controller of its own is involved; a dropped Pod's chain always reaches one |
| Rebuild.JobResolutionIsExact | internal/controller/owner_resolution.go:125-136 | over chains through every kind: folding a Job agrees with its controller chain reaching a workload exactly when no controller other than a CronJob is, or leads to, a workload |
| Rebuild.StrayJobExample | internal/controller/owner_resolution.go:125-136 | a Job of a Deployment reaches a workload and is kept |
| Rebuild.ExactUnderDeployments | internal/controller/owner_resolution.go:150-165 | where ReplicaSets are controlled by Deployments or nothing, and the Pod by a kind that the owner index knows or nothing, it is dropped exactly when its chain reaches a workload |
| Rebuild.StrayExample | internal/controller/owner_resolution.go:150-165 | a Pod of a ReplicaSet of a StatefulSet reaches a workload and is kept |
| Rebuild.StrayPodExample | internal/controller/owner_resolution.go:187-191 | a Pod controlled by a Pod that is a workload reaches a workload and is kept, with no ReplicaSet at all |
| Rebuild.AloneIsListed | internal/controller/controller.go:707-745 | a Pod or Job in scope none of whose references is marked as its controller's is always emitted |
| Rebuild.NamespacesDecide | internal/controller/controller.go:171-187 | nothing outside the configured namespaces is emitted, and every Deployment, StatefulSet, DaemonSet, Ingress and CronJob inside them is |
| Rebuild.IngressPass | internal/controller/controller.go:676-690 | emits the Ingresses in scope, in list order |
| Rebuild.JobPodIsFolded | internal/controller/controller.go:707-745 | a Pod in scope that a Job controls is missing from the rebuild's workloads exactly when that Job is in scope |
| Rebuild.ListingIsIrrelevant | internal/controller/controller.go:613-745 | the order in which objects of each kind are listed does not change which workloads are emitted |
| Rebuild.EmittedOnce | internal/controller/controller.go:613-745 | no workload is emitted twice |
| Protocol.NoLostUpdate | internal/controller/controller.go:496-558 | in every state of every run after the initial request, each kind's graph version is current or something still to happen will make it so, although sends are dropped and early rebuilds discarded |
| Protocol.QuiescentIsCurrent | internal/controller/controller.go:522-558 | with no handler to run, an empty slot and an idle consumer, the graph is that of the stores |
| Protocol.InternalStepsRunOut | internal/controller/controller.go:496-558 | every step of the agent leaves strictly less for it to do |
| Protocol.OwnStepsAreBounded | internal/controller/controller.go:496-558 | left alone, however the steps interleave with time, the agent takes no more steps than its work measures |
| Protocol.WorkIsPossible | internal/controller/controller.go:529-554 | while there is something to do the agent can take a step, at the latest when its timer is up |
| Protocol.Settles | internal/controller/controller.go:496-558 | left alone, the agent comes to rest with a graph of the stores as they are |
| Protocol.UnwatchedKindBlocksRebuilds | internal/controller/controller.go:385-415 | with a kind enabled but not watched no run ever carries out a rebuild, so the graph is current only while every store is empty |
| Protocol.StaleForGood | internal/controller/controller.go:385-415 | and from the first update of a watched kind on, the graph is older than that kind's store for the rest of any run |
| Protocol.RestsStale | internal/controller/controller.go:385-415 | such a configuration has a run that ends at rest with a stale graph |
| Protocol.DeadlineIsFixed | internal/controller/controller.go:535-551 | in every run a drain ends one debounce after the receipt that began it at the earliest, whatever is received meanwhile, and then a rebuild starts |
| Protocol.RebuildsAreSpaced | internal/controller/controller.go:529-554 | in every run rebuilds start at least one debounce apart |
| Protocol.RebuildRateBound | internal/controller/controller.go:529-554 | with a positive debounce, any window of length T sees at most T divided by the debounce, plus one, rebuild starts |
| SnapshotDiff.IndexItems | cmd/kbeaconctl/snapshot_diff.go:330-351 | the loops build the index in which every value has the first free id of its own |
| SnapshotDiff.NextFree | cmd/kbeaconctl/snapshot_diff.go:338-345 | the collision loop terminates with the first untaken candidate |
| SnapshotDiff.FirstFreeIsSoon | cmd/kbeaconctl/snapshot_diff.go:338-345 | it needs at most one try more than there are taken ids |
| SnapshotDiff.IndexLosesNothing | cmd/kbeaconctl/snapshot_diff.go:330-351 | for any list of values the index holds each under its own id, as many entries as values |
| SnapshotDiff.DiffIndexes | cmd/kbeaconctl/snapshot_diff.go:204-239 | the loops and sorts compute the difference of two indexes |
| SnapshotDiff.DiffIsPatch | cmd/kbeaconctl/snapshot_diff.go:204-239 | removing the removed ids and writing the added and changed values turns the old index into the new one |
| SnapshotDiff.DiffListsAreDisjoint | cmd/kbeaconctl/snapshot_diff.go:204-239 | the three lists are strictly sorted by id and share none |
| SnapshotDiff.DiffOfSwapped | cmd/kbeaconctl/snapshot_diff.go:204-239 | swapping the inputs swaps added and removed and flips every change |
| SnapshotDiff.UnchangedIsEqual | cmd/kbeaconctl/snapshot_diff.go:204-239 | all three lists are empty exactly when the indexes are equal |
| SnapshotDiff.TotalOfLonger | cmd/kbeaconctl/snapshot_diff.go:172-181 | each total counts the items of its own list, resource by resource |
| SnapshotDiff.BuildDiff | cmd/kbeaconctl/snapshot_diff.go:154-184 | one difference per resource in order, the totals add up, and the change flag is set exactly when some compared index differs |
| Documents.FirstPlaceCounts | cmd/kbeaconctl/snapshot_diff.go:241-328 | a resource's values are those of the first of its places in the document that holds anything, unwrapped from data, items or edges |
| Documents.NowhereIsEmpty | cmd/kbeaconctl/snapshot_diff.go:277-286 | a resource held at none of them has no values |
| Documents.ExportIsRead | cmd/kbeaconctl/snapshot_diff.go:241-328 | of an export, exactly the exported list is read, for edges that of the dependency map |
| Documents.WrappedIsExported | cmd/kbeaconctl/snapshot_diff.go:310-328 | a list may be wrapped as data or items or stand by itself |
| Documents.ExportedItemID | cmd/kbeaconctl/snapshot_diff.go:353-413 | an item is indexed by its own id, or else a Secret by namespace and name and a workload by namespace, folded kind and name of its reference |
| Documents.EdgeItemID | cmd/kbeaconctl/snapshot_diff.go:378-404 | an edge without an id is indexed by the keys of its two ends |
| Documents.CollisionsAreNumbered | cmd/kbeaconctl/snapshot_diff.go:330-351 | for any values, each is indexed under the first of its own id, that with #2, with #3 and so on that no earlier one has; its own id is the resource and position where it has none |
| Documents.IndexOfDistinct | cmd/kbeaconctl/snapshot_diff.go:330-351 | items with distinct ids are each found under their own, and nothing else is |
| Documents.ComparisonIsOfLists | cmd/kbeaconctl/snapshot_diff.go:154-202 | comparing two exports reports a change exactly when the indexes of some exported lists differ |
| Paging.ParsePagination | internal/server/server.go:380-406 | refused exactly when either parameter is; otherwise the limit is between 1 and 1000 and both are as given |
| Paging.PageDescribesItself | internal/server/server.go:424-450 | for any offset and limit, the page is the stretch of the list asked for, and the response gives what was asked, the total, how much came and where to go on if anything is left |
| Paging.PrintedLimitIsRead | internal/server/server.go:380-392 | a printed limit is read as itself up to 1000, zero is refused, and an absent one is 100 |
| Paging.PrintedOffsetIsRead | internal/server/server.go:394-403 | an offset printed into a request is read back as itself |
| Paging.WalkFrom | internal/server/server.go:424-450 | following the next offset from any accepted offset ends, and the pages concatenate to the rest of the list, all full but the last |
| Paging.WalkIsWhole | internal/server/server.go:424-450 | from the start, the pages concatenate to the whole list |
| Paging.NodesForEdges | internal/server/server.go:452-468 | keeps, in order, the nodes at an end of some edge |
| Paging.NodesOfGraph | internal/graph/cache.go:284-316 | the nodes of a consistent graph have distinct ids, one for each workload and Secret |
| Paging.PageNodesAreEndpoints | internal/server/server.go:285-290 | the nodes sent with any page of edges are exactly the endpoints of its edges, each once |

## Left out

- GraphCache.Cache.Snapshot: leaves out the time a view was generated.
- GraphCache.Cache.GetDependencyMap: calls the source's label of a node its title.
- Consistency.ApplyIsConsistent: assumes that listed Secrets have keys without a bar, as Kubernetes ensures.
- Extractor.WorkloadFromPodSpec: leaves out the path text of sources and its redaction.
- Making a Secret's input from its object: its fields are copied.
- The custom-resource extractors (certificates, external secrets, provider classes, connectors), except the `secretRef` scan of Connectors: they repeat the extractor's shape with other look-ups. In owner resolution their workloads are an arbitrary set; the theorems from listed objects to the graph are about a rebuild with no custom resources.
- Connectors.ScanSecretRefs: leaves out the path text of sources.
- Decoding JSON lists in annotations and `fmt.Sprint` of values that are not strings are parameters, arbitrary functions.
- Case folding and white space beyond ASCII; numbers in JSON are exact reals.
- Cancellation of the context, a failing cache sync, and resync events, which request rebuilds without a store update.
- Informer stores themselves: an update is in its store before its handler runs, and listing from a cache succeeds.
- HTTP routing and filters, command-line parsing, reading files, text and Markdown reports, metrics: input and output around the modelled core.
- Slice aliasing in Go's `append`: lists are values.
