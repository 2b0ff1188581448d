/** The passes of a rebuild, and what they make of controller chains. */
module Rebuild {
  import opened Basics
  import opened OwnerResolution

  // ----- The passes -----

  lemma InScopeOfLonger(filter: NamespaceFilter, objects: seq<Object>, n: nat)
    requires n < |objects|
    ensures InScope(filter, objects[..n + 1]) ==
            if filter.Include(objects[n].namespace)
            then InScope(filter, objects[..n]) + [objects[n]]
            else InScope(filter, objects[..n])
  {
    assert objects[..n + 1][..n] == objects[..n];
  }

  lemma AsWorkloadsOfLonger(kind: string, objects: seq<Object>, o: Object)
    ensures AsWorkloads(kind, objects + [o]) == AsWorkloads(kind, objects) + [Workload(kind, o.namespace, o.name)]
  {}

  lemma NothingPassed(filter: NamespaceFilter, kind: string)
    ensures InScope(filter, []) == [] && Keys([]) == {} && AsWorkloads(kind, []) == []
  {}

  /** One object of a pass adds itself, if it is in scope. */
  lemma PassStep(filter: NamespaceFilter, objects: seq<Object>, n: nat, kind: string)
    requires n < |objects|
    ensures
      var o, before, after := objects[n], InScope(filter, objects[..n]), InScope(filter, objects[..n + 1]);
      if filter.Include(o.namespace) then
        && Keys(after) == Keys(before) + {ObjectKey(o.namespace, o.name)}
        && AsWorkloads(kind, after) == AsWorkloads(kind, before) + [Workload(kind, o.namespace, o.name)]
      else after == before
  {
    hide Keys, InScope, AsWorkloads, ObjectKey;
    InScopeOfLonger(filter, objects, n);
    KeysOfLonger(InScope(filter, objects[..n]), objects[n]);
    AsWorkloadsOfLonger(kind, InScope(filter, objects[..n]), objects[n]);
  }

  method DeploymentPass(index: OwnerIndex, filter: NamespaceFilter, objects: seq<Object>, before: seq<Workload>)
    returns (r: seq<Workload>)
    requires index.deployments == {}
    modifies index`deployments
    ensures index.deployments == Keys(InScope(filter, objects))
    ensures r == before + AsWorkloads("Deployment", InScope(filter, objects))
  {
    hide Keys, ObjectKey, InScope, AsWorkloads, NamespaceFilter.Include;
    r := before;
    NothingPassed(filter, "Deployment");
    for n := 0 to |objects|
      invariant index.deployments == Keys(InScope(filter, objects[..n]))
      invariant r == before + AsWorkloads("Deployment", InScope(filter, objects[..n]))
    {
      PassStep(filter, objects, n, "Deployment");
      if !filter.Include(objects[n].namespace) {
        continue;
      }
      index.AddDeployment(objects[n]);
      r := r + [Workload("Deployment", objects[n].namespace, objects[n].name)];
    }
    assert objects[..|objects|] == objects;
  }

  method ReplicaSetPass(index: OwnerIndex, filter: NamespaceFilter, objects: seq<Object>)
    requires index.replicaSets == map[]
    requires PlainNamespaces(InScope(filter, objects)) && DistinctObjects(InScope(filter, objects))
    modifies index`replicaSets
    ensures Maps(index.replicaSets, InScope(filter, objects))
  {
    hide Maps, ObjectKey, NamespaceFilter.Include, DistinctObjects, PlainNamespaces, InScope;
    MapsNothing();
    NothingPassed(filter, "ReplicaSet");
    for n := 0 to |objects|
      invariant Maps(index.replicaSets, InScope(filter, objects[..n]))
    {
      InScopeOfLonger(filter, objects, n);
      if !filter.Include(objects[n].namespace) {
        continue;
      }
      InScopePrefix(filter, objects, n);
      MapsLonger(index.replicaSets, InScope(filter, objects[..n]), objects[n]);
      index.AddReplicaSet(objects[n]);
    }
    assert objects[..|objects|] == objects;
  }

  method StatefulSetPass(index: OwnerIndex, filter: NamespaceFilter, objects: seq<Object>, before: seq<Workload>)
    returns (r: seq<Workload>)
    requires index.statefulSets == {}
    modifies index`statefulSets
    ensures index.statefulSets == Keys(InScope(filter, objects))
    ensures r == before + AsWorkloads("StatefulSet", InScope(filter, objects))
  {
    hide Keys, ObjectKey, InScope, AsWorkloads, NamespaceFilter.Include;
    r := before;
    NothingPassed(filter, "StatefulSet");
    for n := 0 to |objects|
      invariant index.statefulSets == Keys(InScope(filter, objects[..n]))
      invariant r == before + AsWorkloads("StatefulSet", InScope(filter, objects[..n]))
    {
      PassStep(filter, objects, n, "StatefulSet");
      if !filter.Include(objects[n].namespace) {
        continue;
      }
      index.AddStatefulSet(objects[n]);
      r := r + [Workload("StatefulSet", objects[n].namespace, objects[n].name)];
    }
    assert objects[..|objects|] == objects;
  }

  method DaemonSetPass(index: OwnerIndex, filter: NamespaceFilter, objects: seq<Object>, before: seq<Workload>)
    returns (r: seq<Workload>)
    requires index.daemonSets == {}
    modifies index`daemonSets
    ensures index.daemonSets == Keys(InScope(filter, objects))
    ensures r == before + AsWorkloads("DaemonSet", InScope(filter, objects))
  {
    hide Keys, ObjectKey, InScope, AsWorkloads, NamespaceFilter.Include;
    r := before;
    NothingPassed(filter, "DaemonSet");
    for n := 0 to |objects|
      invariant index.daemonSets == Keys(InScope(filter, objects[..n]))
      invariant r == before + AsWorkloads("DaemonSet", InScope(filter, objects[..n]))
    {
      PassStep(filter, objects, n, "DaemonSet");
      if !filter.Include(objects[n].namespace) {
        continue;
      }
      index.AddDaemonSet(objects[n]);
      r := r + [Workload("DaemonSet", objects[n].namespace, objects[n].name)];
    }
    assert objects[..|objects|] == objects;
  }

  /** Ingresses are workloads but control nothing. */
  method IngressPass(filter: NamespaceFilter, objects: seq<Object>, before: seq<Workload>) returns (r: seq<Workload>)
    ensures r == before + AsWorkloads("Ingress", InScope(filter, objects))
  {
    hide Keys, ObjectKey, InScope, AsWorkloads, NamespaceFilter.Include;
    r := before;
    NothingPassed(filter, "Ingress");
    for n := 0 to |objects|
      invariant r == before + AsWorkloads("Ingress", InScope(filter, objects[..n]))
    {
      PassStep(filter, objects, n, "Ingress");
      if !filter.Include(objects[n].namespace) {
        continue;
      }
      r := r + [Workload("Ingress", objects[n].namespace, objects[n].name)];
    }
    assert objects[..|objects|] == objects;
  }

  method CronJobPass(index: OwnerIndex, filter: NamespaceFilter, objects: seq<Object>, before: seq<Workload>)
    returns (r: seq<Workload>)
    requires index.cronJobs == {}
    modifies index`cronJobs
    ensures index.cronJobs == Keys(InScope(filter, objects))
    ensures r == before + AsWorkloads("CronJob", InScope(filter, objects))
  {
    hide Keys, ObjectKey, InScope, AsWorkloads, NamespaceFilter.Include;
    r := before;
    NothingPassed(filter, "CronJob");
    for n := 0 to |objects|
      invariant index.cronJobs == Keys(InScope(filter, objects[..n]))
      invariant r == before + AsWorkloads("CronJob", InScope(filter, objects[..n]))
    {
      PassStep(filter, objects, n, "CronJob");
      if !filter.Include(objects[n].namespace) {
        continue;
      }
      index.AddCronJob(objects[n]);
      r := r + [Workload("CronJob", objects[n].namespace, objects[n].name)];
    }
    assert objects[..|objects|] == objects;
  }

  /** The Jobs of the list are indexed, and those not folded are workloads. */
  ghost predicate JobsPassed(filter: NamespaceFilter, scope: Objects, objects: seq<Object>, jobs: map<string, Object>,
                             jobWorkloads: set<string>, emitted: seq<Workload>)
  {
    && Maps(jobs, InScope(filter, objects))
    && jobWorkloads == Keys(KeptJobs(scope, InScope(filter, objects)))
    && emitted == AsWorkloads("Job", KeptJobs(scope, InScope(filter, objects)))
  }

  lemma JobSkipped(filter: NamespaceFilter, scope: Objects, objects: seq<Object>, n: nat, jobs: map<string, Object>,
                   jobWorkloads: set<string>, emitted: seq<Workload>)
    requires n < |objects| && JobsPassed(filter, scope, objects[..n], jobs, jobWorkloads, emitted)
    requires !filter.Include(objects[n].namespace)
    ensures JobsPassed(filter, scope, objects[..n + 1], jobs, jobWorkloads, emitted)
  {
    hide Maps, Keys, InScope, AsWorkloads, KeptJobs, NamespaceFilter.Include;
    InScopeOfLonger(filter, objects, n);
  }

  lemma JobTaken(filter: NamespaceFilter, scope: Objects, objects: seq<Object>, n: nat, jobs: map<string, Object>,
                 jobWorkloads: set<string>, emitted: seq<Workload>)
    requires n < |objects| && JobsPassed(filter, scope, objects[..n], jobs, jobWorkloads, emitted)
    requires filter.Include(objects[n].namespace)
    requires PlainNamespaces(InScope(filter, objects)) && DistinctObjects(InScope(filter, objects))
    ensures
      var job := objects[n];
      var key := ObjectKey(job.namespace, job.name);
      JobsPassed(filter, scope, objects[..n + 1], jobs[key := job],
                 jobWorkloads + if JobFolded(scope, job) then {} else {key},
                 emitted + if JobFolded(scope, job) then [] else [Workload("Job", job.namespace, job.name)])
  {
    hide Maps, Keys, ObjectKey, NamespaceFilter.Include, DistinctObjects, JobFolded, PlainNamespaces, InScope,
         AsWorkloads, KeptJobs;
    var job, upTo := objects[n], InScope(filter, objects[..n]);
    InScopeOfLonger(filter, objects, n);
    InScopePrefix(filter, objects, n);
    KeptJobsOfLonger(scope, upTo, job);
    KeysOfLonger(KeptJobs(scope, upTo), job);
    AsWorkloadsOfLonger("Job", KeptJobs(scope, upTo), job);
    MapsLonger(jobs, upTo, job);
  }

  /** Rests on the CronJobs being indexed: a Job is decided as it is indexed. */
  method JobPass(index: OwnerIndex, filter: NamespaceFilter, ghost scope: Objects, objects: seq<Object>,
                 before: seq<Workload>) returns (r: seq<Workload>)
    requires index.jobs == map[] && index.jobWorkloads == {}
    requires index.CronJobsIndexed(scope)
    requires PlainNamespaces(InScope(filter, objects)) && DistinctObjects(InScope(filter, objects))
    modifies index`jobs, index`jobWorkloads
    ensures Maps(index.jobs, InScope(filter, objects))
    ensures index.jobWorkloads == Keys(KeptJobs(scope, InScope(filter, objects)))
    ensures r == before + AsWorkloads("Job", KeptJobs(scope, InScope(filter, objects)))
  {
    hide Maps, Keys, ObjectKey, NamespaceFilter.Include, DistinctObjects, JobFolded, PlainNamespaces, InScope,
         AsWorkloads, KeptJobs;
    assert JobsPassed(filter, scope, [], map[], {}, []) by { NoJobs(filter, scope); }
    r := before;
    ghost var emitted: seq<Workload> := [];
    for n := 0 to |objects|
      invariant r == before + emitted
      invariant JobsPassed(filter, scope, objects[..n], index.jobs, index.jobWorkloads, emitted)
    {
      hide JobsPassed;
      var job := objects[n];
      if !filter.Include(job.namespace) {
        JobSkipped(filter, scope, objects, n, index.jobs, index.jobWorkloads, emitted);
        continue;
      }
      JobTaken(filter, scope, objects, n, index.jobs, index.jobWorkloads, emitted);
      InScopeIsPlain(filter, objects, n);
      var includeJob := index.ShouldIncludeJob(scope, job);
      index.AddJob(job, includeJob);
      if !includeJob {
        continue;
      }
      r := r + [Workload("Job", job.namespace, job.name)];
      emitted := emitted + [Workload("Job", job.namespace, job.name)];
    }
    assert objects[..|objects|] == objects;
  }

  lemma NoJobs(filter: NamespaceFilter, scope: Objects)
    ensures JobsPassed(filter, scope, [], map[], {}, [])
  {}

  /** The Pods up to a position that are workloads of their own. */
  ghost function PodWorkloads(filter: NamespaceFilter, scope: Objects, objects: seq<Object>): seq<Workload> {
    AsWorkloads("Pod", KeptPods(scope, InScope(filter, objects)))
  }

  lemma PodStep(filter: NamespaceFilter, scope: Objects, objects: seq<Object>, n: nat)
    requires n < |objects|
    ensures
      var pod := objects[n];
      PodWorkloads(filter, scope, objects[..n + 1]) == PodWorkloads(filter, scope, objects[..n]) +
        if filter.Include(pod.namespace) && !PodFolded(scope, pod)
        then [Workload("Pod", pod.namespace, pod.name)]
        else []
  {
    hide PodFolded, InScope, AsWorkloads, KeptPods;
    InScopeOfLonger(filter, objects, n);
    KeptPodsOfLonger(scope, InScope(filter, objects[..n]), objects[n]);
    AsWorkloadsOfLonger("Pod", KeptPods(scope, InScope(filter, objects[..n])), objects[n]);
  }

  method PodPass(index: OwnerIndex, filter: NamespaceFilter, ghost scope: Objects, objects: seq<Object>,
                 before: seq<Workload>) returns (r: seq<Workload>)
    requires index.Indexed(scope) && PlainNamespaces(InScope(filter, objects))
    ensures r == before + PodWorkloads(filter, scope, objects)
  {
    hide OwnerIndex.Indexed, NamespaceFilter.Include, PodFolded, PlainNamespaces, InScope, PodWorkloads;
    r := before;
    assert PodWorkloads(filter, scope, []) == [] by { NoPods(filter, scope); }
    for n := 0 to |objects|
      invariant r == before + PodWorkloads(filter, scope, objects[..n])
    {
      PodStep(filter, scope, objects, n);
      var pod := objects[n];
      if !filter.Include(pod.namespace) {
        continue;
      }
      InScopeIsPlain(filter, objects, n);
      var resolved := index.PodResolved(scope, pod);
      if resolved {
        continue;
      }
      r := r + [Workload("Pod", pod.namespace, pod.name)];
    }
    assert objects[..|objects|] == objects;
  }

  lemma NoPods(filter: NamespaceFilter, scope: Objects)
    ensures PodWorkloads(filter, scope, []) == []
  {}

  lemma MapsNothing()
    ensures Maps(map[], [])
  {}

  lemma KeptJobsOfLonger(scope: Objects, jobs: seq<Object>, job: Object)
    ensures KeptJobs(scope, jobs + [job]) ==
      if JobFolded(scope, job) then KeptJobs(scope, jobs) else KeptJobs(scope, jobs) + [job]
  {}

  lemma KeptPodsOfLonger(scope: Objects, pods: seq<Object>, pod: Object)
    ensures KeptPods(scope, pods + [pod]) ==
      if PodFolded(scope, pod) then KeptPods(scope, pods) else KeptPods(scope, pods) + [pod]
  {}

  /** Up to any position, the objects in scope are a prefix of all of them. */
  lemma {:induction false} InScopeIsPrefix(filter: NamespaceFilter, objects: seq<Object>, n: nat)
    requires n <= |objects|
    ensures InScope(filter, objects[..n]) <= InScope(filter, objects)
    decreases |objects| - n
  {
    if n == |objects| {
      assert objects[..n] == objects;
    } else {
      InScopeOfLonger(filter, objects, n);
      InScopeIsPrefix(filter, objects, n + 1);
    }
  }

  lemma InScopePrefix(filter: NamespaceFilter, objects: seq<Object>, n: nat)
    requires n < |objects| && filter.Include(objects[n].namespace)
    requires PlainNamespaces(InScope(filter, objects)) && DistinctObjects(InScope(filter, objects))
    ensures
      var upTo := InScope(filter, objects[..n]) + [objects[n]];
      PlainNamespaces(upTo) && DistinctObjects(upTo)
  {
    hide InScope, NamespaceFilter.Include;
    InScopeOfLonger(filter, objects, n);
    InScopeIsPrefix(filter, objects, n + 1);
    var upTo, all := InScope(filter, objects[..n + 1]), InScope(filter, objects);
    assert forall i :: 0 <= i < |upTo| ==> upTo[i] == all[i];
    assert forall o :: o in upTo ==> o in all;
  }

  lemma InScopeIsPlain(filter: NamespaceFilter, objects: seq<Object>, n: nat)
    requires n < |objects| && filter.Include(objects[n].namespace) && PlainNamespaces(InScope(filter, objects))
    ensures '/' !in objects[n].namespace
  {}

  /** What the API server guarantees: plain namespaces, and one object of a kind under a name. */
  ghost predicate Listable(all: Objects) {
    && WellNamed(all)
    && DistinctObjects(all.deployments) && DistinctObjects(all.replicaSets) && DistinctObjects(all.statefulSets)
    && DistinctObjects(all.daemonSets) && DistinctObjects(all.ingresses) && DistinctObjects(all.cronJobs)
    && DistinctObjects(all.jobs) && DistinctObjects(all.pods)
  }

  lemma {:induction false} InScopeKeeps(filter: NamespaceFilter, objects: seq<Object>)
    requires PlainNamespaces(objects) && DistinctObjects(objects)
    ensures PlainNamespaces(InScope(filter, objects)) && DistinctObjects(InScope(filter, objects))
  {
    if objects != [] {
      var init, last := objects[..|objects| - 1], objects[|objects| - 1];
      assert forall i :: 0 <= i < |init| ==> objects[i] == init[i];
      InScopeKeeps(filter, init);
      var kept := InScope(filter, init);
      forall i | 0 <= i < |kept|
        ensures !At(kept[i], last.namespace, last.name) && !At(last, kept[i].namespace, kept[i].name)
      {
        assert kept[i] in init;
        var j :| 0 <= j < |init| && init[j] == kept[i];
        assert objects[j] == kept[i];
      }
    }
  }

  /**
   The workload part of a rebuild. Its result does not mention the index: each pass left in
   it what the later ones needed.
   */
  method CollectWorkloads(filter: NamespaceFilter, all: Objects) returns (workloads: seq<Workload>)
    requires Listable(all)
    ensures workloads == EmittedWorkloads(Scope(filter, all))
  {
    hide Keys, Maps, InScope, KeptJobs, KeptPods, PlainNamespaces, DistinctObjects, AsWorkloads;
    ghost var scope := Scope(filter, all);
    InScopeKeeps(filter, all.deployments);
    InScopeKeeps(filter, all.replicaSets);
    InScopeKeeps(filter, all.statefulSets);
    InScopeKeeps(filter, all.daemonSets);
    InScopeKeeps(filter, all.ingresses);
    InScopeKeeps(filter, all.cronJobs);
    InScopeKeeps(filter, all.jobs);
    InScopeKeeps(filter, all.pods);
    var index := new OwnerIndex();
    workloads := DeploymentPass(index, filter, all.deployments, []);
    ReplicaSetPass(index, filter, all.replicaSets);
    workloads := StatefulSetPass(index, filter, all.statefulSets, workloads);
    workloads := DaemonSetPass(index, filter, all.daemonSets, workloads);
    workloads := IngressPass(filter, all.ingresses, workloads);
    workloads := CronJobPass(index, filter, all.cronJobs, workloads);
    workloads := JobPass(index, filter, scope, all.jobs, workloads);
    workloads := PodPass(index, filter, scope, all.pods, workloads);
  }

  // ----- Controller chains -----

  /** The kinds of controller that the owner index answers for. */
  const INDEXED: set<string> := {"Deployment", "ReplicaSet", "StatefulSet", "DaemonSet", "Job", "CronJob"}

  /** Workloads of custom resources, which the passes after these emit whatever their owners are. */
  ghost predicate Custom(custom: set<Workload>) {
    forall x :: x in custom ==> x.kind !in INDEXED
  }

  /** An object that has become a workload. */
  ghost predicate Emitted(scope: Objects, custom: set<Workload>, kind: string, namespace: string, name: string) {
    || (kind == "Deployment" && Has(scope.deployments, namespace, name))
    || (kind == "StatefulSet" && Has(scope.statefulSets, namespace, name))
    || (kind == "DaemonSet" && Has(scope.daemonSets, namespace, name))
    || (kind == "Ingress" && Has(scope.ingresses, namespace, name))
    || (kind == "CronJob" && Has(scope.cronJobs, namespace, name))
    || (kind == "Job" && Has(KeptJobs(scope, scope.jobs), namespace, name))
    || (kind == "Pod" && Has(KeptPods(scope, scope.pods), namespace, name))
    || Workload(kind, namespace, name) in custom
  }

  /** That is to say, one that a rebuild lists. */
  lemma EmittedIsListed(scope: Objects, custom: set<Workload>, kind: string, namespace: string, name: string)
    ensures Emitted(scope, custom, kind, namespace, name) <==>
      Workload(kind, namespace, name) in EmittedWorkloads(scope) || Workload(kind, namespace, name) in custom
  {
    hide JobFolded, PodFolded;
    AmongWorkloads("Deployment", scope.deployments, kind, namespace, name);
    AmongWorkloads("StatefulSet", scope.statefulSets, kind, namespace, name);
    AmongWorkloads("DaemonSet", scope.daemonSets, kind, namespace, name);
    AmongWorkloads("Ingress", scope.ingresses, kind, namespace, name);
    AmongWorkloads("CronJob", scope.cronJobs, kind, namespace, name);
    AmongWorkloads("Job", KeptJobs(scope, scope.jobs), kind, namespace, name);
    AmongWorkloads("Pod", KeptPods(scope, scope.pods), kind, namespace, name);
    hide AsWorkloads, KeptJobs, KeptPods, Has;
  }

  lemma AmongWorkloads(listed: string, objects: seq<Object>, kind: string, namespace: string, name: string)
    ensures Workload(kind, namespace, name) in AsWorkloads(listed, objects) <==>
      kind == listed && Has(objects, namespace, name)
  {
    var ws := AsWorkloads(listed, objects);
    if o :| o in objects && At(o, namespace, name) {
      var i :| 0 <= i < |objects| && objects[i] == o;
      assert ws[i] == Workload(listed, namespace, name);
    }
    if Workload(kind, namespace, name) in ws {
      var i :| 0 <= i < |ws| && ws[i] == Workload(kind, namespace, name);
      assert objects[i] in objects && At(objects[i], namespace, name);
    }
  }

  /** The object that a reference points at. */
  ghost predicate Points(scope: Objects, owner: OwnerRef, namespace: string, o: Object) {
    && At(o, namespace, owner.name)
    && ((owner.kind == "Deployment" && o in scope.deployments)
         || (owner.kind == "StatefulSet" && o in scope.statefulSets)
        || (owner.kind == "DaemonSet" && o in scope.daemonSets) || (owner.kind == "CronJob" && o in scope.cronJobs)
        || (owner.kind == "Job" && o in scope.jobs) || (owner.kind == "ReplicaSet" && o in scope.replicaSets)
        || (owner.kind == "Pod" && o in scope.pods) || (owner.kind == "Ingress" && o in scope.ingresses))
  }

  /** Going from controller to controller, a workload is met within the given number of steps. */
  ghost predicate ReachesIn(scope: Objects, custom: set<Workload>, o: Object, steps: nat)
    decreases steps
  {
    var owner := ControllerOf(o.owners);
    owner.Some? &&
    (Emitted(scope, custom, owner.value.kind, o.namespace, owner.value.name)
     || (steps > 0 && exists c :: Points(scope, owner.value, o.namespace, c) && ReachesIn(scope, custom, c, steps - 1)))
  }

  ghost predicate Reaches(scope: Objects, custom: set<Workload>, o: Object) {
    exists steps: nat :: ReachesIn(scope, custom, o, steps)
  }

  /**
   The Pod belongs to a ReplicaSet that is controlled by something other than a Deployment
   and from which a workload is reached all the same.
   */
  ghost predicate StrayReplicaSet(scope: Objects, custom: set<Workload>, pod: Object) {
    var owner := ControllerOf(pod.owners);
    owner.Some? && owner.value.kind == "ReplicaSet" &&
    exists r :: r in scope.replicaSets && At(r, pod.namespace, owner.value.name)
                && ControllerOf(r.owners).Some? && ControllerOf(r.owners).value.kind != "Deployment"
                && Reaches(scope, custom, r)
  }

  /** The controller is a workload, or one is reached from it. */
  ghost predicate LeadsOn(scope: Objects, custom: set<Workload>, o: Object) {
    var owner := ControllerOf(o.owners);
    owner.Some? &&
    (Emitted(scope, custom, owner.value.kind, o.namespace, owner.value.name)
     || exists c :: Points(scope, owner.value, o.namespace, c) && Reaches(scope, custom, c))
  }

  /** The Pod's controller is of a kind that the owner index does not know, and leads on to a workload. */
  ghost predicate StrayPod(scope: Objects, custom: set<Workload>, pod: Object) {
    LeadsOn(scope, custom, pod) && ControllerOf(pod.owners).value.kind !in INDEXED
  }

  /** A Job in scope is a workload itself or leads to its CronJob, which is one. */
  lemma JobReaches(scope: Objects, custom: set<Workload>, pod: Object, owner: OwnerRef, job: Object)
    requires ControllerOf(pod.owners) == Some(owner) && owner.kind == "Job"
    requires job in scope.jobs && At(job, pod.namespace, owner.name)
    ensures Reaches(scope, custom, pod)
  {
    if JobFolded(scope, job) {
      assert ReachesIn(scope, custom, job, 0);
      assert Points(scope, owner, pod.namespace, job);
      assert ReachesIn(scope, custom, pod, 1);
    } else {
      assert ReachesIn(scope, custom, pod, 0);
    }
  }

  lemma FoldedReaches(scope: Objects, custom: set<Workload>, pod: Object)
    requires PodFolded(scope, pod)
    ensures Reaches(scope, custom, pod)
  {
    hide Has, JobFolded;
    var owner := ControllerOf(pod.owners).value;
    if owner.kind == "ReplicaSet" {
      var r :| r in scope.replicaSets && At(r, pod.namespace, owner.name) && OwnedByDeployment(scope, r);
      assert ReachesIn(scope, custom, r, 0);
      assert Points(scope, owner, pod.namespace, r);
      assert ReachesIn(scope, custom, pod, 1);
    } else if owner.kind == "Job" {
      HasWitness(scope.jobs, pod.namespace, owner.name);
      var job :| job in scope.jobs && At(job, pod.namespace, owner.name);
      JobReaches(scope, custom, pod, owner, job);
    } else {
      assert Emitted(scope, custom, owner.kind, pod.namespace, owner.name);
      assert ReachesIn(scope, custom, pod, 0);
    }
  }

  lemma HasWitness(objects: seq<Object>, namespace: string, name: string)
    ensures Has(objects, namespace, name) <==> exists o :: o in objects && At(o, namespace, name)
  {}

  lemma ReachingIsFolded(scope: Objects, custom: set<Workload>, pod: Object)
    requires Custom(custom)
    requires Reaches(scope, custom, pod) && !StrayReplicaSet(scope, custom, pod) && !StrayPod(scope, custom, pod)
    ensures PodFolded(scope, pod)
  {
    hide JobFolded, Reaches;
    ReachesFirst(scope, custom, pod);
    var owner := ControllerOf(pod.owners).value;
    if !Emitted(scope, custom, owner.kind, pod.namespace, owner.name) {
      var c :| Points(scope, owner, pod.namespace, c) && Reaches(scope, custom, c);
      if owner.kind == "ReplicaSet" {
        ReachesFirst(scope, custom, c);
        assert ControllerOf(c.owners).value.kind == "Deployment";
        NoDeploymentPoints(scope, c);
        assert OwnedByDeployment(scope, c);
      }
    }
  }

  lemma ReachesFirst(scope: Objects, custom: set<Workload>, o: Object)
    requires Reaches(scope, custom, o)
    ensures LeadsOn(scope, custom, o)
  {
    hide Emitted, Points;
    var steps: nat :| ReachesIn(scope, custom, o, steps);
    var owner := ControllerOf(o.owners).value;
    if !Emitted(scope, custom, owner.kind, o.namespace, owner.name) {
      var c :| Points(scope, owner, o.namespace, c) && ReachesIn(scope, custom, c, steps - 1);
      assert Reaches(scope, custom, c);
    }
  }

  /** A Deployment that is pointed at is emitted. */
  lemma NoDeploymentPoints(scope: Objects, o: Object)
    requires ControllerOf(o.owners).Some? && ControllerOf(o.owners).value.kind == "Deployment"
    ensures (exists c :: Points(scope, ControllerOf(o.owners).value, o.namespace, c)) ==>
            Has(scope.deployments, o.namespace, ControllerOf(o.owners).value.name)
  {}

  lemma StrayIsKept(scope: Objects, custom: set<Workload>, pod: Object)
    requires StrayReplicaSet(scope, custom, pod) && DistinctObjects(scope.replicaSets)
    ensures Reaches(scope, custom, pod) && !PodFolded(scope, pod)
  {
    hide Reaches, Has, JobFolded;
    var owner := ControllerOf(pod.owners).value;
    var r :| r in scope.replicaSets && At(r, pod.namespace, owner.name)
             && ControllerOf(r.owners).Some? && ControllerOf(r.owners).value.kind != "Deployment"
             && Reaches(scope, custom, r);
    ReachesThrough(scope, custom, pod, r);
    forall q | q in scope.replicaSets && At(q, pod.namespace, owner.name) ensures q == r {
      var i :| 0 <= i < |scope.replicaSets| && scope.replicaSets[i] == q;
      var j :| 0 <= j < |scope.replicaSets| && scope.replicaSets[j] == r;
    }
  }

  lemma ReachesThrough(scope: Objects, custom: set<Workload>, o: Object, c: Object)
    requires ControllerOf(o.owners).Some? && Points(scope, ControllerOf(o.owners).value, o.namespace, c)
      && Reaches(scope, custom, c)
    ensures Reaches(scope, custom, o)
  {
    hide Emitted, Points;
    var steps: nat :| ReachesIn(scope, custom, c, steps);
    assert ReachesIn(scope, custom, o, steps + 1);
  }

  /**
   A Pod is dropped exactly when its controller chain reaches a workload, unless it hangs on
   a stray ReplicaSet or is stray itself; and then it is kept although its chain does reach one.
   */
  lemma OwnerResolutionIsExact(scope: Objects, custom: set<Workload>, pod: Object)
    requires DistinctObjects(scope.replicaSets) && Custom(custom)
    ensures (PodFolded(scope, pod) <==> Reaches(scope, custom, pod)) <==>
      !StrayReplicaSet(scope, custom, pod) && !StrayPod(scope, custom, pod)
    ensures PodFolded(scope, pod) ==> Reaches(scope, custom, pod)
  {
    hide PodFolded, Reaches, StrayReplicaSet, StrayPod, DistinctObjects;
    if PodFolded(scope, pod) {
      FoldedReaches(scope, custom, pod);
    }
    if StrayReplicaSet(scope, custom, pod) {
      StrayIsKept(scope, custom, pod);
    } else if StrayPod(scope, custom, pod) {
      StrayPodIsKept(scope, custom, pod);
    } else if Reaches(scope, custom, pod) {
      ReachingIsFolded(scope, custom, pod);
    }
  }

  lemma StrayPodIsKept(scope: Objects, custom: set<Workload>, pod: Object)
    requires StrayPod(scope, custom, pod)
    ensures Reaches(scope, custom, pod) && !PodFolded(scope, pod)
  {
    ReachesNext(scope, custom, pod);
  }

  lemma ReachesNext(scope: Objects, custom: set<Workload>, o: Object)
    ensures LeadsOn(scope, custom, o) <==> Reaches(scope, custom, o)
  {
    hide Reaches, Emitted, Points;
    if LeadsOn(scope, custom, o) {
      var owner := ControllerOf(o.owners).value;
      if Emitted(scope, custom, owner.kind, o.namespace, owner.name) {
        assert ReachesIn(scope, custom, o, 0);
        ReachesAtOnce(scope, custom, o);
      } else {
        var c :| Points(scope, owner, o.namespace, c) && Reaches(scope, custom, c);
        ReachesThrough(scope, custom, o, c);
      }
    }
    if Reaches(scope, custom, o) {
      ReachesFirst(scope, custom, o);
    }
  }

  /** The Job is controlled by something other than a CronJob that is a workload or from which one is reached. */
  ghost predicate StrayJob(scope: Objects, custom: set<Workload>, job: Object) {
    LeadsOn(scope, custom, job) && ControllerOf(job.owners).value.kind != "CronJob"
  }

  /** The same for Jobs. */
  lemma JobResolutionIsExact(scope: Objects, custom: set<Workload>, job: Object)
    requires Custom(custom)
    ensures (JobFolded(scope, job) <==> Reaches(scope, custom, job)) <==> !StrayJob(scope, custom, job)
    ensures JobFolded(scope, job) ==> Reaches(scope, custom, job)
  {
    hide Reaches;
    ReachesNext(scope, custom, job);
  }

  /** A Job controlled by a Deployment is stray. */
  lemma StrayJobExample()
    ensures
      var deployment := Object("ns", "d", []);
      var job := Object("ns", "job", [OwnerRef("Deployment", "d", Some(true))]);
      var scope := Objects([deployment], [], [], [], [], [], [job], []);
      Reaches(scope, {}, job) && !JobFolded(scope, job)
  {
    var deployment := Object("ns", "d", []);
    var job := Object("ns", "job", [OwnerRef("Deployment", "d", Some(true))]);
    var scope := Objects([deployment], [], [], [], [], [], [job], []);
    assert deployment in scope.deployments && At(deployment, "ns", "d");
    assert ControllerOf(job.owners) == Some(job.owners[0]);
    assert ReachesIn(scope, {}, job, 0);
  }

  lemma ReachesAtOnce(scope: Objects, custom: set<Workload>, o: Object)
    requires ReachesIn(scope, custom, o, 0)
    ensures Reaches(scope, custom, o)
  {}

  /**
   Where ReplicaSets are controlled by Deployments or by nothing, and the Pod by a kind that
   the owner index knows or by nothing, the outcome is exact.
   */
  lemma ExactUnderDeployments(scope: Objects, custom: set<Workload>, pod: Object)
    requires DistinctObjects(scope.replicaSets) && Custom(custom)
    requires forall r :: r in scope.replicaSets && ControllerOf(r.owners).Some? ==>
      ControllerOf(r.owners).value.kind == "Deployment"
    requires ControllerOf(pod.owners).Some? ==> ControllerOf(pod.owners).value.kind in INDEXED
    ensures PodFolded(scope, pod) <==> Reaches(scope, custom, pod)
  {
    hide PodFolded, Reaches;
    OwnerResolutionIsExact(scope, custom, pod);
  }

  /** A ReplicaSet controlled by a StatefulSet is stray. */
  lemma StrayExample()
    ensures
      var set_ := Object("ns", "set", []);
      var replicaSet := Object("ns", "rs", [OwnerRef("StatefulSet", "set", Some(true))]);
      var pod := Object("ns", "pod", [OwnerRef("ReplicaSet", "rs", Some(true))]);
      var scope := Objects([], [replicaSet], [set_], [], [], [], [], [pod]);
      Reaches(scope, {}, pod) && !PodFolded(scope, pod)
  {
    var set_ := Object("ns", "set", []);
    var replicaSet := Object("ns", "rs", [OwnerRef("StatefulSet", "set", Some(true))]);
    var pod := Object("ns", "pod", [OwnerRef("ReplicaSet", "rs", Some(true))]);
    var scope := Objects([], [replicaSet], [set_], [], [], [], [], [pod]);
    assert set_ in scope.statefulSets && At(set_, "ns", "set");
    assert ReachesIn(scope, {}, replicaSet, 0);
    assert replicaSet in scope.replicaSets;
    assert ControllerOf(pod.owners) == Some(pod.owners[0]);
    assert Points(scope, pod.owners[0], "ns", replicaSet);
    assert ReachesIn(scope, {}, pod, 1);
  }

  /** A Pod controlled by a Pod that is a workload is stray, however plainly all ReplicaSets are owned. */
  lemma StrayPodExample()
    ensures
      var driver := Object("ns", "driver", []);
      var executor := Object("ns", "executor", [OwnerRef("Pod", "driver", Some(true))]);
      var scope := Objects([], [], [], [], [], [], [], [driver, executor]);
      Reaches(scope, {}, executor) && !PodFolded(scope, executor)
  {
    var driver := Object("ns", "driver", []);
    var executor := Object("ns", "executor", [OwnerRef("Pod", "driver", Some(true))]);
    var scope := Objects([], [], [], [], [], [], [], [driver, executor]);
    assert driver in scope.pods && driver in KeptPods(scope, scope.pods) && At(driver, "ns", "driver");
    assert ControllerOf(executor.owners) == Some(executor.owners[0]);
    assert ReachesIn(scope, {}, executor, 0);
  }

  /** A Pod in scope that a Job controls is missing from a rebuild exactly when that Job is in scope. */
  lemma JobPodIsFolded(filter: NamespaceFilter, all: Objects, pod: Object)
    requires Listable(all) && pod in all.pods && filter.Include(pod.namespace)
    requires ControllerOf(pod.owners).Some? && ControllerOf(pod.owners).value.kind == "Job"
    ensures Workload("Pod", pod.namespace, pod.name) !in EmittedWorkloads(Scope(filter, all)) <==>
      exists j :: j in all.jobs && filter.Include(j.namespace)
        && At(j, pod.namespace, ControllerOf(pod.owners).value.name)
  {
    hide PodFolded, JobFolded, NamespaceFilter.Include, InScope, AsWorkloads;
    var scope := Scope(filter, all);
    PodIsListed(scope, pod);
    InScopeKeeps(filter, all.pods);
    PodOfJob(scope, pod);
    OnlyPod(scope.pods, pod);
    assert forall j :: j in scope.jobs <==> j in all.jobs && filter.Include(j.namespace);
  }

  /** A rebuild lists a Pod of the name exactly when it keeps one. */
  lemma PodIsListed(scope: Objects, pod: Object)
    ensures Workload("Pod", pod.namespace, pod.name) in EmittedWorkloads(scope) <==>
      Has(KeptPods(scope, scope.pods), pod.namespace, pod.name)
  {
    hide KeptPods, KeptJobs, Has, EmittedWorkloads;
    EmittedIsListed(scope, {}, "Pod", pod.namespace, pod.name);
  }

  lemma PodOfJob(scope: Objects, pod: Object)
    requires ControllerOf(pod.owners).Some? && ControllerOf(pod.owners).value.kind == "Job"
    ensures PodFolded(scope, pod) <==> Has(scope.jobs, pod.namespace, ControllerOf(pod.owners).value.name)
  {}

  lemma OnlyPod(pods: seq<Object>, pod: Object)
    requires DistinctObjects(pods) && pod in pods
    ensures forall p :: p in pods && At(p, pod.namespace, pod.name) ==> p == pod
  {
    var i :| 0 <= i < |pods| && pods[i] == pod;
    forall p | p in pods && At(p, pod.namespace, pod.name) ensures p == pod {
      var j :| 0 <= j < |pods| && pods[j] == p;
    }
  }

  // ----- What stands alone, and what is in scope -----

  /** No reference of the object is marked as its controller's. */
  predicate Alone(o: Object) {
    forall n :: 0 <= n < |o.owners| ==> o.owners[n].controller != Some(true)
  }

  lemma AloneHasNone(o: Object)
    requires Alone(o)
    ensures ControllerOf(o.owners) == None
  {
    ControllerIsFirst(o.owners, OwnerRef("", "", None));
  }

  /** Owners that are not controllers never fold anything: such a Pod or Job in scope is always a workload. */
  lemma AloneIsListed(filter: NamespaceFilter, all: Objects, o: Object)
    requires Alone(o) && filter.Include(o.namespace)
    ensures o in all.pods ==> Workload("Pod", o.namespace, o.name) in EmittedWorkloads(Scope(filter, all))
    ensures o in all.jobs ==> Workload("Job", o.namespace, o.name) in EmittedWorkloads(Scope(filter, all))
  {
    hide InScope, KeptPods, KeptJobs, EmittedWorkloads, NamespaceFilter.Include;
    var scope := Scope(filter, all);
    AloneHasNone(o);
    assert !PodFolded(scope, o) && !JobFolded(scope, o);
    assert At(o, o.namespace, o.name);
    EmittedIsListed(scope, {}, "Pod", o.namespace, o.name);
    EmittedIsListed(scope, {}, "Job", o.namespace, o.name);
  }

  predicate Configured(filter: NamespaceFilter, namespace: string) {
    && namespace != "" && namespace !in filter.exclude
    && (filter.include_ == {} || namespace in filter.include_)
  }

  /** Nothing outside the configured namespaces is a workload, and every top-level controller inside them is. */
  lemma NamespacesDecide(filter: NamespaceFilter, all: Objects, kind: string, namespace: string, name: string)
    ensures Workload(kind, namespace, name) in EmittedWorkloads(Scope(filter, all)) ==> Configured(filter, namespace)
    ensures Configured(filter, namespace) ==>
      && (Has(all.deployments, namespace, name) ==>
            Workload("Deployment", namespace, name) in EmittedWorkloads(Scope(filter, all)))
      && (Has(all.statefulSets, namespace, name) ==>
            Workload("StatefulSet", namespace, name) in EmittedWorkloads(Scope(filter, all)))
      && (Has(all.daemonSets, namespace, name) ==>
            Workload("DaemonSet", namespace, name) in EmittedWorkloads(Scope(filter, all)))
      && (Has(all.ingresses, namespace, name) ==>
            Workload("Ingress", namespace, name) in EmittedWorkloads(Scope(filter, all)))
      && (Has(all.cronJobs, namespace, name) ==>
            Workload("CronJob", namespace, name) in EmittedWorkloads(Scope(filter, all)))
  {
    hide InScope, KeptPods, KeptJobs, EmittedWorkloads, PodFolded, JobFolded;
    var scope := Scope(filter, all);
    EmittedIsListed(scope, {}, kind, namespace, name);
    EmittedIsListed(scope, {}, "Deployment", namespace, name);
    EmittedIsListed(scope, {}, "StatefulSet", namespace, name);
    EmittedIsListed(scope, {}, "DaemonSet", namespace, name);
    EmittedIsListed(scope, {}, "Ingress", namespace, name);
    EmittedIsListed(scope, {}, "CronJob", namespace, name);
  }

  // ----- The order of listing -----

  ghost predicate SameObjects(a: seq<Object>, b: seq<Object>) {
    forall o :: o in a <==> o in b
  }

  /** The same objects of each kind, in any order. */
  ghost predicate SameListing(a: Objects, b: Objects) {
    && SameObjects(a.deployments, b.deployments) && SameObjects(a.replicaSets, b.replicaSets)
    && SameObjects(a.statefulSets, b.statefulSets) && SameObjects(a.daemonSets, b.daemonSets)
    && SameObjects(a.ingresses, b.ingresses) && SameObjects(a.cronJobs, b.cronJobs)
    && SameObjects(a.jobs, b.jobs) && SameObjects(a.pods, b.pods)
  }

  lemma ScopeKeepsListing(filter: NamespaceFilter, a: Objects, b: Objects)
    requires SameListing(a, b)
    ensures SameListing(Scope(filter, a), Scope(filter, b))
  {
    hide InScope, NamespaceFilter.Include;
  }

  lemma FoldingIgnoresListing(a: Objects, b: Objects, o: Object)
    requires SameListing(a, b)
    ensures JobFolded(a, o) == JobFolded(b, o) && PodFolded(a, o) == PodFolded(b, o)
  {
    hide ControllerOf;
  }

  lemma SameWorkloads(listed: string, a: seq<Object>, b: seq<Object>, x: Workload)
    requires SameObjects(a, b)
    ensures x in AsWorkloads(listed, a) <==> x in AsWorkloads(listed, b)
  {
    hide AsWorkloads;
    AmongWorkloads(listed, a, x.kind, x.namespace, x.name);
    AmongWorkloads(listed, b, x.kind, x.namespace, x.name);
    assert x == Workload(x.kind, x.namespace, x.name);
  }

  /** In whatever order the stores list their objects, a rebuild lists the same workloads. */
  lemma ListingIsIrrelevant(filter: NamespaceFilter, a: Objects, b: Objects, x: Workload)
    requires SameListing(a, b)
    ensures x in EmittedWorkloads(Scope(filter, a)) <==> x in EmittedWorkloads(Scope(filter, b))
  {
    hide InScope, AsWorkloads, KeptJobs, KeptPods, JobFolded, PodFolded;
    ScopeKeepsListing(filter, a, b);
    var s, t := Scope(filter, a), Scope(filter, b);
    forall o ensures JobFolded(s, o) == JobFolded(t, o) && PodFolded(s, o) == PodFolded(t, o) {
      FoldingIgnoresListing(s, t, o);
    }
    assert SameObjects(KeptJobs(s, s.jobs), KeptJobs(t, t.jobs))
      && SameObjects(KeptPods(s, s.pods), KeptPods(t, t.pods));
    SameWorkloads("Deployment", s.deployments, t.deployments, x);
    SameWorkloads("StatefulSet", s.statefulSets, t.statefulSets, x);
    SameWorkloads("DaemonSet", s.daemonSets, t.daemonSets, x);
    SameWorkloads("Ingress", s.ingresses, t.ingresses, x);
    SameWorkloads("CronJob", s.cronJobs, t.cronJobs, x);
    SameWorkloads("Job", KeptJobs(s, s.jobs), KeptJobs(t, t.jobs), x);
    SameWorkloads("Pod", KeptPods(s, s.pods), KeptPods(t, t.pods), x);
    hide SameListing, SameObjects;
  }

  // ----- Nothing twice -----

  ghost predicate DistinctWorkloads(ws: seq<Workload>) {
    forall i, j :: 0 <= i < j < |ws| ==> ws[i] != ws[j]
  }

  ghost predicate OfKinds(ws: seq<Workload>, kinds: set<string>) {
    forall i :: 0 <= i < |ws| ==> ws[i].kind in kinds
  }

  lemma DistinctOfKind(kind: string, objects: seq<Object>)
    requires DistinctObjects(objects)
    ensures DistinctWorkloads(AsWorkloads(kind, objects)) && OfKinds(AsWorkloads(kind, objects), {kind})
  {}

  lemma DistinctAppend(a: seq<Workload>, b: seq<Workload>, kinds: set<string>, kind: string)
    requires DistinctWorkloads(a) && DistinctWorkloads(b) && OfKinds(a, kinds) && OfKinds(b, {kind}) && kind !in kinds
    ensures DistinctWorkloads(a + b) && OfKinds(a + b, kinds + {kind})
  {}

  lemma {:induction false} KeptJobsKeep(scope: Objects, jobs: seq<Object>)
    requires DistinctObjects(jobs)
    ensures DistinctObjects(KeptJobs(scope, jobs))
  {
    hide JobFolded;
    if jobs != [] {
      var init, last := jobs[..|jobs| - 1], jobs[|jobs| - 1];
      assert forall i :: 0 <= i < |init| ==> jobs[i] == init[i];
      KeptJobsKeep(scope, init);
      var kept := KeptJobs(scope, init);
      forall i | 0 <= i < |kept|
        ensures !At(kept[i], last.namespace, last.name) && !At(last, kept[i].namespace, kept[i].name)
      {
        assert kept[i] in init;
        var j :| 0 <= j < |init| && init[j] == kept[i];
        assert jobs[j] == kept[i];
      }
    }
  }

  lemma {:induction false} KeptPodsKeep(scope: Objects, pods: seq<Object>)
    requires DistinctObjects(pods)
    ensures DistinctObjects(KeptPods(scope, pods))
  {
    hide PodFolded;
    if pods != [] {
      var init, last := pods[..|pods| - 1], pods[|pods| - 1];
      assert forall i :: 0 <= i < |init| ==> pods[i] == init[i];
      KeptPodsKeep(scope, init);
      var kept := KeptPods(scope, init);
      forall i | 0 <= i < |kept|
        ensures !At(kept[i], last.namespace, last.name) && !At(last, kept[i].namespace, kept[i].name)
      {
        assert kept[i] in init;
        var j :| 0 <= j < |init| && init[j] == kept[i];
        assert pods[j] == kept[i];
      }
    }
  }

  /** No workload is emitted twice. */
  lemma EmittedOnce(filter: NamespaceFilter, all: Objects)
    requires Listable(all)
    ensures DistinctWorkloads(EmittedWorkloads(Scope(filter, all)))
  {
    hide DistinctObjects, PlainNamespaces, InScope, KeptJobs, KeptPods, AsWorkloads, DistinctWorkloads, OfKinds;
    var s := Scope(filter, all);
    InScopeKeeps(filter, all.deployments);
    InScopeKeeps(filter, all.statefulSets);
    InScopeKeeps(filter, all.daemonSets);
    InScopeKeeps(filter, all.ingresses);
    InScopeKeeps(filter, all.cronJobs);
    InScopeKeeps(filter, all.jobs);
    InScopeKeeps(filter, all.pods);
    KeptJobsKeep(s, s.jobs);
    KeptPodsKeep(s, s.pods);
    DistinctOfKind("Deployment", s.deployments);
    DistinctOfKind("StatefulSet", s.statefulSets);
    DistinctOfKind("DaemonSet", s.daemonSets);
    DistinctOfKind("Ingress", s.ingresses);
    DistinctOfKind("CronJob", s.cronJobs);
    DistinctOfKind("Job", KeptJobs(s, s.jobs));
    DistinctOfKind("Pod", KeptPods(s, s.pods));
    var a, kinds := AsWorkloads("Deployment", s.deployments), {"Deployment"};
    DistinctAppend(a, AsWorkloads("StatefulSet", s.statefulSets), kinds, "StatefulSet");
    a, kinds := a + AsWorkloads("StatefulSet", s.statefulSets), kinds + {"StatefulSet"};
    DistinctAppend(a, AsWorkloads("DaemonSet", s.daemonSets), kinds, "DaemonSet");
    a, kinds := a + AsWorkloads("DaemonSet", s.daemonSets), kinds + {"DaemonSet"};
    DistinctAppend(a, AsWorkloads("Ingress", s.ingresses), kinds, "Ingress");
    a, kinds := a + AsWorkloads("Ingress", s.ingresses), kinds + {"Ingress"};
    DistinctAppend(a, AsWorkloads("CronJob", s.cronJobs), kinds, "CronJob");
    a, kinds := a + AsWorkloads("CronJob", s.cronJobs), kinds + {"CronJob"};
    DistinctAppend(a, AsWorkloads("Job", KeptJobs(s, s.jobs)), kinds, "Job");
    a, kinds := a + AsWorkloads("Job", KeptJobs(s, s.jobs)), kinds + {"Job"};
    DistinctAppend(a, AsWorkloads("Pod", KeptPods(s, s.pods)), kinds, "Pod");
  }
}
