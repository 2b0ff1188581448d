/**
 Which Pods and Jobs are folded into a workload above them: the owner index, the passes of a
 rebuild that fill and ask it, and what the outcome means for controller chains.
 */
module OwnerResolution {
  import opened Basics
  import opened Text

  datatype OwnerRef = OwnerRef(kind: string, name: string, controller: Option<bool>)

  /** The metadata of any Kubernetes object that matters here. */
  datatype Object = Object(namespace: string, name: string, owners: seq<OwnerRef>)

  /** The listed objects, kind by kind; a kind that is not watched has none. */
  datatype Objects = Objects(
    deployments: seq<Object>,
    replicaSets: seq<Object>,
    statefulSets: seq<Object>,
    daemonSets: seq<Object>,
    ingresses: seq<Object>,
    cronJobs: seq<Object>,
    jobs: seq<Object>,
    pods: seq<Object>)

  datatype Workload = Workload(kind: string, namespace: string, name: string)

  datatype NamespaceFilter = NamespaceFilter(include_: set<string>, exclude: set<string>) {
    predicate Include(namespace: string) {
      namespace != "" && (include_ == {} || namespace in include_) && namespace !in exclude
    }
  }

  /** The first reference that is a controller with a kind and a name. */
  function ControllerOf(refs: seq<OwnerRef>): (r: Option<OwnerRef>)
    ensures r.Some? ==> r.value in refs && r.value.kind != "" && r.value.name != ""
  {
    if refs == [] then None
    else if refs[0].controller == Some(true) && refs[0].kind != "" && refs[0].name != "" then Some(refs[0])
    else ControllerOf(refs[1..])
  }

  method FindController(refs: seq<OwnerRef>) returns (r: Option<OwnerRef>)
    ensures r == ControllerOf(refs)
  {
    for n := 0 to |refs|
      invariant ControllerOf(refs) == ControllerOf(refs[n..])
    {
      assert refs[n..][1..] == refs[n + 1..];
      if refs[n].controller != Some(true) {
        continue;
      }
      if refs[n].kind == "" || refs[n].name == "" {
        continue;
      }
      return Some(refs[n]);
    }
    return None;
  }

  /** A reference marked as the controller's, with a kind and a name. */
  predicate Controls(ref: OwnerRef) {
    ref.controller == Some(true) && ref.kind != "" && ref.name != ""
  }

  ghost predicate FirstAt(refs: seq<OwnerRef>, n: int) {
    0 <= n < |refs| && Controls(refs[n]) && forall m :: 0 <= m < n ==> !Controls(refs[m])
  }

  /** The controller is the first reference that controls; there is none exactly when no reference does. */
  lemma {:induction false} ControllerIsFirst(refs: seq<OwnerRef>, r: OwnerRef)
    ensures ControllerOf(refs) == Some(r) <==> exists n :: FirstAt(refs, n) && refs[n] == r
    ensures ControllerOf(refs) == None <==> forall n :: 0 <= n < |refs| ==> !Controls(refs[n])
  {
    hide Controls;
    if refs != [] {
      FirstOrRest(refs);
      var rest := refs[1..];
      ControllerIsFirst(rest, r);
      if Controls(refs[0]) {
        assert FirstAt(refs, 0);
      } else {
        if n :| FirstAt(rest, n) && rest[n] == r {
          assert FirstAt(refs, n + 1) && refs[n + 1] == r;
        }
        if n :| FirstAt(refs, n) && refs[n] == r {
          assert FirstAt(rest, n - 1) && rest[n - 1] == r;
        }
      }
    }
  }

  lemma FirstOrRest(refs: seq<OwnerRef>)
    requires refs != []
    ensures ControllerOf(refs) == if Controls(refs[0]) then Some(refs[0]) else ControllerOf(refs[1..])
  {}

  // ----- What should happen, in terms of the objects -----

  predicate At(o: Object, namespace: string, name: string) {
    o.namespace == namespace && o.name == name
  }

  predicate Has(objects: seq<Object>, namespace: string, name: string) {
    exists o :: o in objects && At(o, namespace, name)
  }

  /** A Job is folded into the CronJob that controls it, when that is in scope. */
  predicate JobFolded(scope: Objects, job: Object) {
    var owner := ControllerOf(job.owners);
    owner.Some? && owner.value.kind == "CronJob" && Has(scope.cronJobs, job.namespace, owner.value.name)
  }

  predicate OwnedByDeployment(scope: Objects, replicaSet: Object) {
    var owner := ControllerOf(replicaSet.owners);
    owner.Some? && owner.value.kind == "Deployment" && Has(scope.deployments, replicaSet.namespace, owner.value.name)
  }

  /** A Pod is folded by the kind of its controller. Any Job in scope will do: it is a workload or is itself folded. */
  predicate PodFolded(scope: Objects, pod: Object) {
    match ControllerOf(pod.owners)
    case None => false
    case Some(owner) =>
      if owner.kind == "Deployment" then Has(scope.deployments, pod.namespace, owner.name)
      else if owner.kind == "ReplicaSet" then
        exists r :: r in scope.replicaSets && At(r, pod.namespace, owner.name) && OwnedByDeployment(scope, r)
      else if owner.kind == "StatefulSet" then Has(scope.statefulSets, pod.namespace, owner.name)
      else if owner.kind == "DaemonSet" then Has(scope.daemonSets, pod.namespace, owner.name)
      else if owner.kind == "Job" then Has(scope.jobs, pod.namespace, owner.name)
      else if owner.kind == "CronJob" then Has(scope.cronJobs, pod.namespace, owner.name)
      else false
  }

  function InScope(filter: NamespaceFilter, objects: seq<Object>): (r: seq<Object>)
    ensures forall o :: o in r <==> o in objects && filter.Include(o.namespace)
  {
    if objects == [] then []
    else
      var init, last := InScope(filter, objects[..|objects| - 1]), objects[|objects| - 1];
      assert objects == objects[..|objects| - 1] + [last];
      if filter.Include(last.namespace) then init + [last] else init
  }

  function Scope(filter: NamespaceFilter, all: Objects): Objects {
    Objects(InScope(filter, all.deployments), InScope(filter, all.replicaSets), InScope(filter, all.statefulSets),
            InScope(filter, all.daemonSets), InScope(filter, all.ingresses), InScope(filter, all.cronJobs),
            InScope(filter, all.jobs), InScope(filter, all.pods))
  }

  function AsWorkloads(kind: string, objects: seq<Object>): (r: seq<Workload>)
    ensures |r| == |objects|
    ensures forall i :: 0 <= i < |objects| ==> r[i] == Workload(kind, objects[i].namespace, objects[i].name)
  {
    seq(|objects|, i requires 0 <= i < |objects| => Workload(kind, objects[i].namespace, objects[i].name))
  }

  function KeptJobs(scope: Objects, jobs: seq<Object>): (r: seq<Object>)
    ensures forall o :: o in r <==> o in jobs && !JobFolded(scope, o)
  {
    if jobs == [] then []
    else
      var init, last := KeptJobs(scope, jobs[..|jobs| - 1]), jobs[|jobs| - 1];
      assert jobs == jobs[..|jobs| - 1] + [last];
      if JobFolded(scope, last) then init else init + [last]
  }

  function KeptPods(scope: Objects, pods: seq<Object>): (r: seq<Object>)
    ensures forall o :: o in r <==> o in pods && !PodFolded(scope, o)
  {
    if pods == [] then []
    else
      var init, last := KeptPods(scope, pods[..|pods| - 1]), pods[|pods| - 1];
      assert pods == pods[..|pods| - 1] + [last];
      if PodFolded(scope, last) then init else init + [last]
  }

  /** The workloads of a rebuild, in pass order. */
  function EmittedWorkloads(scope: Objects): seq<Workload> {
    AsWorkloads("Deployment", scope.deployments) + AsWorkloads("StatefulSet", scope.statefulSets)
    + AsWorkloads("DaemonSet", scope.daemonSets) + AsWorkloads("Ingress", scope.ingresses)
    + AsWorkloads("CronJob", scope.cronJobs)
    + AsWorkloads("Job", KeptJobs(scope, scope.jobs)) + AsWorkloads("Pod", KeptPods(scope, scope.pods))
  }

  // ----- The index -----

  function ObjectKey(namespace: string, name: string): string {
    namespace + "/" + name
  }

  ghost predicate PlainNamespaces(objects: seq<Object>) {
    forall o :: o in objects ==> '/' !in o.namespace
  }

  ghost predicate DistinctObjects(objects: seq<Object>) {
    forall i, j :: 0 <= i < |objects| && 0 <= j < |objects| && At(objects[i], objects[j].namespace, objects[j].name) ==>
      i == j
  }

  /** The keys of a list of objects. */
  function Keys(objects: seq<Object>): set<string> {
    set o | o in objects :: ObjectKey(o.namespace, o.name)
  }

  lemma KeyIsObject(objects: seq<Object>, namespace: string, name: string)
    requires PlainNamespaces(objects) && '/' !in namespace
    ensures ObjectKey(namespace, name) in Keys(objects) <==> Has(objects, namespace, name)
  {
    forall o | o in objects
      ensures ObjectKey(o.namespace, o.name) == ObjectKey(namespace, name) <==> At(o, namespace, name)
    {
      if ObjectKey(o.namespace, o.name) == ObjectKey(namespace, name) {
        CutIsInjective(o.namespace, namespace, '/', o.name, name);
      }
    }
  }

  lemma KeysOfLonger(objects: seq<Object>, o: Object)
    ensures Keys(objects + [o]) == Keys(objects) + {ObjectKey(o.namespace, o.name)}
  {}

  /** The map holds the listed objects under their keys. */
  ghost predicate Maps(m: map<string, Object>, objects: seq<Object>) {
    m.Keys == Keys(objects) && forall o :: o in objects ==>
      ObjectKey(o.namespace, o.name) in m && m[ObjectKey(o.namespace, o.name)] == o
  }

  lemma MapsLonger(m: map<string, Object>, objects: seq<Object>, o: Object)
    requires Maps(m, objects) && PlainNamespaces(objects + [o]) && DistinctObjects(objects + [o])
    ensures Maps(m[ObjectKey(o.namespace, o.name) := o], objects + [o])
  {
    KeysOfLonger(objects, o);
    forall p | p in objects ensures ObjectKey(p.namespace, p.name) != ObjectKey(o.namespace, o.name) {
      var all := objects + [o];
      var i :| 0 <= i < |objects| && objects[i] == p;
      assert all[i] == p && all[|objects|] == o;
      if ObjectKey(p.namespace, p.name) == ObjectKey(o.namespace, o.name) {
        CutIsInjective(p.namespace, o.namespace, '/', p.name, o.name);
      }
    }
  }

  class OwnerIndex {
    var deployments: set<string>
    var statefulSets: set<string>
    var daemonSets: set<string>
    var cronJobs: set<string>
    var jobWorkloads: set<string>
    var jobs: map<string, Object>
    var replicaSets: map<string, Object>

    constructor ()
      ensures deployments == {} && statefulSets == {} && daemonSets == {} && cronJobs == {} && jobWorkloads == {}
      ensures jobs == map[] && replicaSets == map[]
    {
      deployments, statefulSets, daemonSets, cronJobs, jobWorkloads := {}, {}, {}, {}, {};
      jobs, replicaSets := map[], map[];
    }

    method AddDeployment(o: Object)
      modifies `deployments
      ensures deployments == old(deployments) + {ObjectKey(o.namespace, o.name)}
    {
      deployments := deployments + {ObjectKey(o.namespace, o.name)};
    }

    method AddStatefulSet(o: Object)
      modifies `statefulSets
      ensures statefulSets == old(statefulSets) + {ObjectKey(o.namespace, o.name)}
    {
      statefulSets := statefulSets + {ObjectKey(o.namespace, o.name)};
    }

    method AddDaemonSet(o: Object)
      modifies `daemonSets
      ensures daemonSets == old(daemonSets) + {ObjectKey(o.namespace, o.name)}
    {
      daemonSets := daemonSets + {ObjectKey(o.namespace, o.name)};
    }

    method AddCronJob(o: Object)
      modifies `cronJobs
      ensures cronJobs == old(cronJobs) + {ObjectKey(o.namespace, o.name)}
    {
      cronJobs := cronJobs + {ObjectKey(o.namespace, o.name)};
    }

    method AddReplicaSet(o: Object)
      modifies `replicaSets
      ensures replicaSets == old(replicaSets)[ObjectKey(o.namespace, o.name) := o]
    {
      replicaSets := replicaSets[ObjectKey(o.namespace, o.name) := o];
    }

    method AddJob(o: Object, asWorkload: bool)
      modifies `jobs, `jobWorkloads
      ensures jobs == old(jobs)[ObjectKey(o.namespace, o.name) := o]
      ensures jobWorkloads == old(jobWorkloads) + if asWorkload then {ObjectKey(o.namespace, o.name)} else {}
    {
      jobs := jobs[ObjectKey(o.namespace, o.name) := o];
      if asWorkload {
        jobWorkloads := jobWorkloads + {ObjectKey(o.namespace, o.name)};
      }
    }

    /** The CronJob pass is over. */
    ghost predicate CronJobsIndexed(scope: Objects)
      reads this
    {
      PlainNamespaces(scope.cronJobs) && cronJobs == Keys(scope.cronJobs)
    }

    /** All passes before the Pods' are over, each having used the ones before it. */
    ghost predicate Indexed(scope: Objects)
      reads this
    {
      && PlainNamespaces(scope.deployments) && deployments == Keys(scope.deployments)
      && PlainNamespaces(scope.statefulSets) && statefulSets == Keys(scope.statefulSets)
      && PlainNamespaces(scope.daemonSets) && daemonSets == Keys(scope.daemonSets)
      && CronJobsIndexed(scope)
      && PlainNamespaces(scope.jobs) && jobWorkloads == Keys(KeptJobs(scope, scope.jobs)) && Maps(jobs, scope.jobs)
      && PlainNamespaces(scope.replicaSets) && Maps(replicaSets, scope.replicaSets)
    }

    method ShouldIncludeJob(ghost scope: Objects, job: Object) returns (include_: bool)
      requires CronJobsIndexed(scope) && '/' !in job.namespace
      ensures include_ <==> !JobFolded(scope, job)
    {
      hide Keys, Has;
      var owner := FindController(job.owners);
      if owner.None? {
        return true;
      }
      KeyIsObject(scope.cronJobs, job.namespace, owner.value.name);
      if owner.value.kind == "CronJob" && ObjectKey(job.namespace, owner.value.name) in cronJobs {
        return false;
      }
      return true;
    }

    method PodResolved(ghost scope: Objects, pod: Object) returns (resolved: bool)
      requires Indexed(scope) && '/' !in pod.namespace
      ensures resolved <==> PodFolded(scope, pod)
    {
      hide Keys, Has, Maps, OwnedByDeployment, KeptJobs, ObjectKey;
      var found := FindController(pod.owners);
      if found.None? {
        return false;
      }
      var owner := found.value;
      var key := ObjectKey(pod.namespace, owner.name);
      KeyIsObject(scope.deployments, pod.namespace, owner.name);
      KeyIsObject(scope.statefulSets, pod.namespace, owner.name);
      KeyIsObject(scope.daemonSets, pod.namespace, owner.name);
      KeyIsObject(scope.cronJobs, pod.namespace, owner.name);
      match owner.kind {
        case "Deployment" => resolved := key in deployments;
        case "ReplicaSet" => resolved := ReplicaSetResolved(scope, pod.namespace, owner.name);
        case "StatefulSet" => resolved := key in statefulSets;
        case "DaemonSet" => resolved := key in daemonSets;
        case "Job" => resolved := JobResolved(scope, pod.namespace, owner.name);
        case "CronJob" => resolved := key in cronJobs;
        case _ => resolved := false;
      }
    }

    method ReplicaSetResolved(ghost scope: Objects, namespace: string, name: string) returns (resolved: bool)
      requires Indexed(scope) && '/' !in namespace
      ensures resolved <==> exists r :: r in scope.replicaSets && At(r, namespace, name) && OwnedByDeployment(scope, r)
    {
      hide KeptJobs, Keys, ObjectKey, Has;
      var key := ObjectKey(namespace, name);
      MappedObject(replicaSets, scope.replicaSets, namespace, name);
      if key !in replicaSets {
        return false;
      }
      var replicaSet := replicaSets[key];
      var owner := FindController(replicaSet.owners);
      if owner.None? {
        return false;
      }
      if owner.value.kind == "Deployment" {
        KeyIsObject(scope.deployments, replicaSet.namespace, owner.value.name);
        return ObjectKey(replicaSet.namespace, owner.value.name) in deployments;
      }
      return false;
    }

    /** Asks first for a Job workload, then for a Job folded into its CronJob: together, for any Job. */
    method JobResolved(ghost scope: Objects, namespace: string, name: string) returns (resolved: bool)
      requires Indexed(scope) && '/' !in namespace
      ensures resolved <==> Has(scope.jobs, namespace, name)
    {
      hide Keys, ObjectKey;
      var key := ObjectKey(namespace, name);
      MappedObject(jobs, scope.jobs, namespace, name);
      KeyIsObject(scope.jobs, namespace, name);
      KeyIsObject(KeptJobs(scope, scope.jobs), namespace, name);
      if key in jobWorkloads {
        return true;
      }
      if key !in jobs {
        return false;
      }
      var job := jobs[key];
      assert JobFolded(scope, job);
      var owner := FindController(job.owners);
      if owner.None? {
        return false;
      }
      KeyIsObject(scope.cronJobs, job.namespace, owner.value.name);
      return owner.value.kind == "CronJob" && ObjectKey(job.namespace, owner.value.name) in cronJobs;
    }
  }

  /** Looking a key up gives the one object at that place. */
  lemma MappedObject(m: map<string, Object>, objects: seq<Object>, namespace: string, name: string)
    requires Maps(m, objects) && PlainNamespaces(objects) && '/' !in namespace
    ensures ObjectKey(namespace, name) in m <==> Has(objects, namespace, name)
    ensures forall o :: o in objects && At(o, namespace, name) ==>
      ObjectKey(namespace, name) in m && m[ObjectKey(namespace, name)] == o
    ensures ObjectKey(namespace, name) in m ==>
      m[ObjectKey(namespace, name)] in objects && At(m[ObjectKey(namespace, name)], namespace, name)
  {
    hide Keys;
    KeyIsObject(objects, namespace, name);
  }

  ghost predicate WellNamed(all: Objects) {
    && PlainNamespaces(all.deployments) && PlainNamespaces(all.replicaSets) && PlainNamespaces(all.statefulSets)
    && PlainNamespaces(all.daemonSets) && PlainNamespaces(all.ingresses) && PlainNamespaces(all.cronJobs)
    && PlainNamespaces(all.jobs) && PlainNamespaces(all.pods)
  }
}
