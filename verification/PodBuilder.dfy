/**
 The template built on the heap, as the program does it: a resource list is a shared map that
 many structs can point to, the environment a slice that is changed through a pointer. The
 spec stays as it was because the container gets copies of its resource lists.
 */
module PodBuilder {
  import opened Prelude
  import opened PodBuild
  import opened PodServes

  /** A resource list: a map reached through a reference. */
  class ResourceList {
    var items: map<string, Quantity>

    constructor (items: map<string, Quantity>)
      ensures this.items == items
    {
      this.items := items;
    }

    method Put(name: string, q: Quantity)
      modifies this
      ensures items == old(items)[name := q]
    {
      items := items[name := q];
    }
  }

  /** The part of a notebook spec that the template is built from. */
  class SpecObject {
    var image: string
    var limits: ResourceList?
    var requests: ResourceList?
    var tolerations: seq<Toleration>
    var gpu: Option<Gpu>
    var workspace: Option<Workspace>
    var datasets: seq<Dataset>
    var tmp: Option<Tmp>

    /** The objects the spec consists of. */
    function Parts(): set<object>
      reads this
    {
      {this} + (if limits != null then {limits as object} else {}) + (if requests != null then {requests as object} else {})
    }

    /** What the spec says. */
    function View(): PodInputs
      reads Parts()
    {
      PodInputs(image, ListView(limits), ListView(requests), tolerations, gpu, workspace, datasets, tmp)
    }
  }

  function ListView(list: ResourceList?): Option<map<string, Quantity>>
    reads if list == null then {} else {list}
  {
    if list == null then None else Some(list.items)
  }

  class Container {
    const image: string
    const limits: ResourceList
    const requests: ResourceList
    var env: seq<Env>

    constructor (image: string, limits: ResourceList, requests: ResourceList, env: seq<Env>)
      ensures this.image == image && this.limits == limits && this.requests == requests && this.env == env
    {
      this.image, this.limits, this.requests, this.env := image, limits, requests, env;
    }

    /** Finds the variable by index, then updates it in place or appends it. */
    method SetOrUpdateEnv(name: string, value: string)
      modifies `env
      ensures env == SetEnv(old(env), name, value)
    {
      var i := 0;
      while i < |env|
        invariant 0 <= i <= |env| && env == old(env)
        invariant forall j :: 0 <= j < i ==> env[j].name != name
      {
        if env[i].name == name {
          SetEnvSkips(env, name, value, i);
          env := env[..i] + [env[i].(value := value)] + env[i + 1..];
          return;
        }
        i := i + 1;
      }
      SetEnvSkips(env, name, value, i);
      env := env + [Env(name, value, None)];
    }

    /** Adds the extended resources of the provider to limits and environment. */
    method InjectGpuResources(gpu: Gpu)
      modifies `env, limits
      ensures limits.items == old(limits.items) + GpuLimits(gpu)
      ensures env == GpuEnv(old(env), gpu)
    {
      hide Decimal, Memory, SetEnv;
      LimitsInSteps(limits.items, gpu);
      hide GpuLimits;
      if gpu.provider == "mig" {
        if gpu.mig.Some? && gpu.mig.value != "" {
          limits.Put("nvidia.com/mig-" + gpu.mig.value, Units(1));
        }
      } else {
        limits.Put("nvidia.com/gpu", Units(1));
        if gpu.hami.Some? {
          if gpu.hami.value.memory.nanos != 0 {
            var memory := Memory(gpu.hami.value);
            limits.Put("nvidia.com/gpumem", Units(memory));
            SetOrUpdateEnv("CUDA_VGPU_MEM", Decimal(memory));
          }
          if gpu.hami.value.cores > 0 {
            limits.Put("nvidia.com/gpucores", Units(gpu.hami.value.cores));
            SetOrUpdateEnv("CUDA_VGPU_CORES", Decimal(gpu.hami.value.cores));
          }
        }
      }
    }
  }

  lemma PutIsAdd(m: map<string, Quantity>, name: string, q: Quantity)
    ensures m + map[name := q] == m[name := q]
  {
  }

  lemma AddAssociates(m: map<string, Quantity>, a: map<string, Quantity>, b: map<string, Quantity>)
    ensures m + (a + b) == (m + a) + b && m + map[] == m
  {
  }

  /** The resources of the device plugin, put in one after the other. */
  lemma LimitsInSteps(m: map<string, Quantity>, gpu: Gpu)
    ensures m + GpuLimits(gpu) ==
            if gpu.provider == "mig" then
              if gpu.mig.Some? && gpu.mig.value != "" then m["nvidia.com/mig-" + gpu.mig.value := Units(1)] else m
            else
              var m1 := m["nvidia.com/gpu" := Units(1)];
              var m2 := if gpu.hami.Some? && gpu.hami.value.memory.nanos != 0
                        then m1["nvidia.com/gpumem" := Units(Memory(gpu.hami.value))] else m1;
              if gpu.hami.Some? && gpu.hami.value.cores > 0
              then m2["nvidia.com/gpucores" := Units(gpu.hami.value.cores)] else m2
  {
    hide Memory, Units;
    if gpu.provider == "mig" {
      AddAssociates(m, map[], map[]);
      PutIsAdd(m, "nvidia.com/mig-" + if gpu.mig.Some? then gpu.mig.value else "", Units(1));
    } else {
      var a := map["nvidia.com/gpu" := Units(1)];
      var b := if gpu.hami.Some? && gpu.hami.value.memory.nanos != 0
               then map["nvidia.com/gpumem" := Units(Memory(gpu.hami.value))] else map[];
      var c := if gpu.hami.Some? && gpu.hami.value.cores > 0
               then map["nvidia.com/gpucores" := Units(gpu.hami.value.cores)] else map[];
      AddAssociates(m, a + b, c);
      AddAssociates(m, a, b);
      PutIsAdd(m, "nvidia.com/gpu", Units(1));
      var m1 := m["nvidia.com/gpu" := Units(1)];
      AddAssociates(m1, map[], map[]);
      if gpu.hami.Some? {
        PutIsAdd(m1, "nvidia.com/gpumem", Units(Memory(gpu.hami.value)));
        AddAssociates(m1 + b, map[], map[]);
        PutIsAdd(m1 + b, "nvidia.com/gpucores", Units(gpu.hami.value.cores));
      }
    }
  }

  /** A copy that shares nothing; an absent list becomes an empty one. */
  method CopyList(list: ResourceList?) returns (r: ResourceList)
    ensures fresh(r) && r.items == OrEmpty(ListView(list))
  {
    if list == null {
      r := new ResourceList(map[]);
    } else {
      r := new ResourceList(list.items);
    }
  }

  /** Volumes and mounts, appended one by one. */
  method BuildVolumes(name: string, spec: SpecObject) returns (volumes: seq<Volume>, mounts: seq<Mount>)
    ensures var pod := spec.View();
            && volumes == WorkspaceVolumes(name, pod) + DatasetVolumes(pod.datasets) + [TmpVolumeOf(pod)]
            && mounts == WorkspaceMounts(pod) + DatasetMounts(pod.datasets) + [TmpMount(pod)]
  {
    volumes, mounts := [], [];
    if spec.workspace.Some? {
      volumes := volumes + [ClaimVolume("workspace", name + "-workspace", false)];
      mounts := mounts + [Mount("workspace", spec.workspace.value.mountPath, false)];
    }
    ghost var v, m := volumes, mounts;
    for j := 0 to |spec.datasets|
      invariant volumes == v + DatasetVolumes(spec.datasets[..j])
      invariant mounts == m + DatasetMounts(spec.datasets[..j])
    {
      var ds := spec.datasets[j];
      NextDataset(spec.datasets, j);
      volumes := volumes + [ClaimVolume(ds.name, ds.pvcName, true)];
      mounts := mounts + [Mount(ds.name, ds.mountPath, true)];
    }
    assert spec.datasets[..|spec.datasets|] == spec.datasets;
    var limit := None;
    var path := "/tmp";
    if spec.tmp.Some? {
      if spec.tmp.value.sizeLimit.nanos != 0 {
        limit := Some(spec.tmp.value.sizeLimit);
      }
      if spec.tmp.value.mountPath != "" {
        path := spec.tmp.value.mountPath;
      }
    }
    volumes := volumes + [TmpVolume(limit)];
    mounts := mounts + [Mount("tmp", path, false)];
  }

  lemma NextDataset(ds: seq<Dataset>, j: nat)
    requires j < |ds|
    ensures DatasetVolumes(ds[..j + 1]) == DatasetVolumes(ds[..j]) + [ClaimVolume(ds[j].name, ds[j].pvcName, true)]
    ensures DatasetMounts(ds[..j + 1]) == DatasetMounts(ds[..j]) + [Mount(ds[j].name, ds[j].mountPath, true)]
  {
  }

  /** Builds the template; every object of the spec is left as it was. */
  method Build(name: string, spec: SpecObject) returns (t: Template)
    ensures t == BuildTemplate(name, old(spec.View()))
    ensures Serves(t, name, old(spec.View()))
    ensures unchanged(spec.Parts()) && spec.View() == old(spec.View())
  {
    hide Serves, GpuLimits, GpuEnv, WorkspaceVolumes, DatasetVolumes, WorkspaceMounts, DatasetMounts;
    var volumes, mounts := BuildVolumes(name, spec);
    var tolerations := spec.tolerations;
    var gpuEnabled := spec.gpu.Some? && spec.gpu.value.enable;
    if gpuEnabled && |tolerations| == 0 {
      tolerations := tolerations + [GPU_TOLERATION];
    }
    var limits := CopyList(spec.limits);
    var requests := CopyList(spec.requests);
    var container := new Container(spec.image, limits, requests, TokenEnv(name));
    if gpuEnabled {
      container.InjectGpuResources(spec.gpu.value);
    }
    assert limits.items == OrEmpty(spec.View().limits)
           + if gpuEnabled then GpuLimits(spec.gpu.value) else map[];
    t := Template(container.image, container.limits.items, container.requests.items, container.env,
                  volumes, mounts, tolerations, gpuEnabled);
    TemplateServes(name, spec.View());
  }
}
