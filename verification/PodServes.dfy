/**
 What a Pod template must hold for the spec it is built from, said of the template alone: image and
 resources, the volumes and where they are mounted, the token, and what a GPU adds. Whether a mount
 names one volume is up to the names in the spec, and it is said exactly when.
 */
module PodServes {
  import opened Prelude
  import opened PodBuild

  predicate GpuOn(pod: PodInputs) { pod.gpu.Some? && pod.gpu.value.enable }

  /** Division as the program has it, which drops the fraction of a negative number, too. */
  function TowardZero(a: int, b: nat): int
    requires b > 0
  {
    if a < 0 then -(-a / b) else a / b
  }

  function AmountOf(list: Option<map<string, Quantity>>, resource: string): Option<Quantity>
  {
    if list.Some? && resource in list.value then Some(list.value[resource]) else None
  }

  /** Image and requests of the spec, an absent list being empty; without a GPU also its limits. */
  ghost predicate ResourcesRight(t: Template, pod: PodInputs)
  {
    && t.image == pod.image
    && t.requests == (if pod.requests.None? then map[] else pod.requests.value)
    && (!GpuOn(pod) ==> t.limits == if pod.limits.None? then map[] else pod.limits.value)
  }

  function WorkspaceCount(pod: PodInputs): nat { if pod.workspace.Some? then 1 else 0 }

  /** The workspace first, then the datasets in order, then the scratch space. */
  ghost predicate StorageRight(t: Template, name: string, pod: PodInputs)
  {
    var w := WorkspaceCount(pod);
    var n := |pod.datasets|;
    && |t.volumes| == |t.mounts| == w + n + 1
    && (pod.workspace.Some? ==>
          && t.volumes[0] == ClaimVolume("workspace", name + "-workspace", false)
          && t.mounts[0] == Mount("workspace", pod.workspace.value.mountPath, false))
    && (forall j :: w <= j < w + n ==>
          t.volumes[j] == ClaimVolume(pod.datasets[j - w].name, pod.datasets[j - w].pvcName, true))
    && (forall j :: w <= j < w + n ==>
          t.mounts[j] == Mount(pod.datasets[j - w].name, pod.datasets[j - w].mountPath, true))
    && ScratchRight(t.volumes[w + n], t.mounts[w + n], pod.tmp)
  }

  /** Writable scratch space, of the limit that is set and is not zero, at the path or at /tmp. */
  ghost predicate ScratchRight(v: Volume, m: Mount, tmp: Option<Tmp>)
  {
    && v.TmpVolume? && m.name == "tmp" && !m.readOnly
    && (v.limit.Some? <==> tmp.Some? && tmp.value.sizeLimit.nanos != 0)
    && (v.limit.Some? ==> v.limit.value == tmp.value.sizeLimit)
    && m.path == (if tmp.None? || tmp.value.mountPath == "" then "/tmp" else tmp.value.mountPath)
  }

  /** The user's tolerations, or that of the GPU if there is one and they are none. */
  ghost predicate SchedulingRight(t: Template, pod: PodInputs)
  {
    && (t.escalation <==> GpuOn(pod))
    && (pod.tolerations != [] || !GpuOn(pod) ==> t.tolerations == pod.tolerations)
    && (pod.tolerations == [] && GpuOn(pod) ==>
          t.tolerations == [Toleration("nvidia.com/gpu", "Exists", "NoSchedule")])
  }

  /** The token comes from the notebook's Secret; without a GPU there is no other variable. */
  ghost predicate EnvRight(t: Template, name: string, pod: PodInputs)
  {
    && t.env != [] && t.env[0] == Env("JUPYTER_TOKEN", "", Some(name + "-secret"))
    && (!GpuOn(pod) ==> |t.env| == 1)
  }

  ghost predicate Serves(t: Template, name: string, pod: PodInputs)
  {
    ResourcesRight(t, pod) && StorageRight(t, name, pod) && SchedulingRight(t, pod) && EnvRight(t, name, pod)
  }

  /** Where the parts of a list that is put together from three begin. */
  lemma ThreeParts<T>(a: seq<T>, b: seq<T>, last: T)
    ensures var r := a + b + [last];
            && |r| == |a| + |b| + 1 && r[|a| + |b|] == last
            && (forall j :: 0 <= j < |a| ==> r[j] == a[j])
            && (forall j :: |a| <= j < |a| + |b| ==> r[j] == b[j - |a|])
  {
  }

  lemma DatasetLists(ds: seq<Dataset>)
    ensures |DatasetVolumes(ds)| == |DatasetMounts(ds)| == |ds|
    ensures forall j :: 0 <= j < |ds| ==> DatasetVolumes(ds)[j] == ClaimVolume(ds[j].name, ds[j].pvcName, true)
    ensures forall j :: 0 <= j < |ds| ==> DatasetMounts(ds)[j] == Mount(ds[j].name, ds[j].mountPath, true)
  {
  }

  lemma VolumesInPlace(name: string, pod: PodInputs)
    ensures var v := WorkspaceVolumes(name, pod) + DatasetVolumes(pod.datasets) + [TmpVolumeOf(pod)];
            var w := WorkspaceCount(pod);
            && |v| == w + |pod.datasets| + 1 && v[w + |pod.datasets|] == TmpVolumeOf(pod)
            && (w == 1 ==> v[0] == ClaimVolume("workspace", name + "-workspace", false))
            && forall j :: w <= j < w + |pod.datasets| ==>
                 v[j] == ClaimVolume(pod.datasets[j - w].name, pod.datasets[j - w].pvcName, true)
  {
    hide TmpVolumeOf, DatasetVolumes, DatasetMounts;
    DatasetLists(pod.datasets);
    ThreeParts(WorkspaceVolumes(name, pod), DatasetVolumes(pod.datasets), TmpVolumeOf(pod));
  }

  lemma MountsInPlace(pod: PodInputs)
    ensures var m := WorkspaceMounts(pod) + DatasetMounts(pod.datasets) + [TmpMount(pod)];
            var w := WorkspaceCount(pod);
            && |m| == w + |pod.datasets| + 1 && m[w + |pod.datasets|] == TmpMount(pod)
            && (w == 1 ==> m[0] == Mount("workspace", pod.workspace.value.mountPath, false))
            && forall j :: w <= j < w + |pod.datasets| ==>
                 m[j] == Mount(pod.datasets[j - w].name, pod.datasets[j - w].mountPath, true)
  {
    hide TmpMount, DatasetVolumes, DatasetMounts;
    DatasetLists(pod.datasets);
    ThreeParts(WorkspaceMounts(pod), DatasetMounts(pod.datasets), TmpMount(pod));
  }

  lemma StorageServes(name: string, pod: PodInputs)
    ensures StorageRight(BuildTemplate(name, pod), name, pod)
  {
    hide GpuLimits, GpuEnv, ScratchRight, TmpVolumeOf, TmpMount;
    hide WorkspaceVolumes, DatasetVolumes, WorkspaceMounts, DatasetMounts;
    VolumesInPlace(name, pod);
    MountsInPlace(pod);
    ScratchServes(pod);
  }

  lemma ScratchServes(pod: PodInputs)
    ensures ScratchRight(TmpVolumeOf(pod), TmpMount(pod), pod.tmp)
  {
  }

  lemma {:induction false} SetEnvKeepsFirst(env: seq<Env>, name: string, value: string)
    requires env != [] && env[0].name != name
    ensures var r := SetEnv(env, name, value); r != [] && r[0] == env[0]
  {
  }

  lemma EnvServes(name: string, pod: PodInputs)
    ensures EnvRight(BuildTemplate(name, pod), name, pod)
  {
    hide Decimal, Memory, GpuLimits;
    EnvNamesDiffer();
    var env := TokenEnv(name);
    if UsesGpu(pod) && pod.gpu.value.provider != "mig" && pod.gpu.value.hami.Some? {
      var h := pod.gpu.value.hami.value;
      SetEnvKeepsFirst(env, "CUDA_VGPU_MEM", Decimal(Memory(h)));
      var e1 := if h.memory.nanos != 0 then SetEnv(env, "CUDA_VGPU_MEM", Decimal(Memory(h))) else env;
      SetEnvKeepsFirst(e1, "CUDA_VGPU_CORES", Decimal(h.cores));
      hide SetEnv;
    }
  }

  /** The template that is built is right for the spec. */
  lemma TemplateServes(name: string, pod: PodInputs)
    ensures Serves(BuildTemplate(name, pod), name, pod)
  {
    StorageServes(name, pod);
    EnvServes(name, pod);
    hide StorageRight, EnvRight, GpuLimits, GpuEnv, WorkspaceVolumes, DatasetVolumes, WorkspaceMounts, DatasetMounts;
  }

  // ----- mounts and volumes -----------------------------------------------------------------------

  function VolumeName(v: Volume): string
  {
    match v case ClaimVolume(name, _, _) => name case TmpVolume(_) => "tmp"
  }

  /** The volumes a mount can mean. */
  function Meant(t: Template, m: Mount): set<int>
  {
    set j | 0 <= j < |t.volumes| && VolumeName(t.volumes[j]) == m.name
  }

  /** The names of a spec do not clash: datasets among each other, or with those the operator uses. */
  ghost predicate NamesApart(pod: PodInputs)
  {
    && (forall i, j :: 0 <= i < j < |pod.datasets| ==> pod.datasets[i].name != pod.datasets[j].name)
    && (forall j :: 0 <= j < |pod.datasets| ==> pod.datasets[j].name != "tmp")
    && (pod.workspace.Some? ==> forall j :: 0 <= j < |pod.datasets| ==> pod.datasets[j].name != "workspace")
  }

  lemma MountsNameVolumes(t: Template, name: string, pod: PodInputs)
    requires StorageRight(t, name, pod)
    ensures forall j :: 0 <= j < |t.mounts| ==> t.mounts[j].name == VolumeName(t.volumes[j])
  {
  }

  ghost predicate VolumesApart(t: Template)
  {
    forall i, j :: 0 <= i < j < |t.volumes| ==> VolumeName(t.volumes[i]) != VolumeName(t.volumes[j])
  }

  /** Names by their place among the datasets: the workspace before them, the scratch space behind. */
  function NameAt(pod: PodInputs, j: int): string
    requires -1 <= j <= |pod.datasets|
  {
    if j < 0 then "workspace" else if j < |pod.datasets| then pod.datasets[j].name else "tmp"
  }

  lemma NamesInOrder(t: Template, name: string, pod: PodInputs)
    requires StorageRight(t, name, pod)
    ensures var w := WorkspaceCount(pod);
            && |t.volumes| == w + |pod.datasets| + 1
            && forall j :: 0 <= j < |t.volumes| ==> VolumeName(t.volumes[j]) == NameAt(pod, j - w)
  {
  }

  lemma PairApart(pod: PodInputs, i: int, j: int)
    requires NamesApart(pod) && 0 <= i + WorkspaceCount(pod) && i < j <= |pod.datasets|
    ensures NameAt(pod, i) != NameAt(pod, j)
  {
    assert |"workspace"| == 9 && |"tmp"| == 3;
  }

  lemma NamesApartVolumesApart(t: Template, name: string, pod: PodInputs)
    requires StorageRight(t, name, pod) && NamesApart(pod)
    ensures VolumesApart(t)
  {
    hide StorageRight, NamesApart, VolumeName, NameAt;
    NamesInOrder(t, name, pod);
    var w := WorkspaceCount(pod);
    forall i, j | 0 <= i < j < |t.volumes| ensures VolumeName(t.volumes[i]) != VolumeName(t.volumes[j]) {
      PairApart(pod, i - w, j - w);
    }
  }

  lemma VolumesApartNamesApart(t: Template, name: string, pod: PodInputs)
    requires StorageRight(t, name, pod) && VolumesApart(t)
    ensures NamesApart(pod)
  {
    hide StorageRight, VolumeName;
    NamesInOrder(t, name, pod);
    var w := WorkspaceCount(pod);
    var n := |pod.datasets|;
    forall i, j | 0 <= i < j < n ensures pod.datasets[i].name != pod.datasets[j].name {
      assert VolumeName(t.volumes[w + i]) != VolumeName(t.volumes[w + j]);
    }
    forall j | 0 <= j < n
      ensures pod.datasets[j].name != "tmp" && (w == 1 ==> pod.datasets[j].name != "workspace")
    {
      assert VolumeName(t.volumes[w + j]) != VolumeName(t.volumes[w + n]);
      assert w == 1 ==> VolumeName(t.volumes[0]) != VolumeName(t.volumes[w + j]);
    }
  }

  /**
   Every mount of a template that is right for its spec names exactly one volume, if and only if the
   names in the spec do not clash.
   */
  lemma MountsMeanOneVolume(t: Template, name: string, pod: PodInputs)
    requires Serves(t, name, pod)
    ensures (forall m :: m in t.mounts ==> |Meant(t, m)| == 1) <==> NamesApart(pod)
  {
    hide ResourcesRight, SchedulingRight, EnvRight;
    MountsNameVolumes(t, name, pod);
    assert |t.volumes| == |t.mounts|;
    if NamesApart(pod) { NamesApartVolumesApart(t, name, pod); }
    if VolumesApart(t) { VolumesApartNamesApart(t, name, pod); }
    hide StorageRight, NamesApart, VolumeName, Serves;
    if VolumesApart(t) {
      forall m | m in t.mounts ensures |Meant(t, m)| == 1 {
        var j :| 0 <= j < |t.mounts| && t.mounts[j] == m;
        assert Meant(t, m) == {j};
      }
    } else {
      var i, j :| 0 <= i < j < |t.volumes| && VolumeName(t.volumes[i]) == VolumeName(t.volumes[j]);
      TwoMeant(t, i, j);
    }
  }

  lemma TwoMeant(t: Template, i: nat, j: nat)
    requires i < j < |t.volumes| == |t.mounts| && t.mounts[i].name == VolumeName(t.volumes[i]) == VolumeName(t.volumes[j])
    ensures t.mounts[i] in t.mounts && |Meant(t, t.mounts[i])| > 1
  {
    hide VolumeName;
    assert {i, j} <= Meant(t, t.mounts[i]);
    SubsetSize({i, j}, Meant(t, t.mounts[i]));
  }

  lemma {:induction false} SubsetSize<T>(a: set<T>, b: set<T>)
    requires a <= b
    ensures |a| <= |b|
  {
    if a != {} {
      var x :| x in a;
      SubsetSize(a - {x}, b - {x});
    }
  }

  /** What is written survives in one claim alone: the workspace's, which a purge deletes. */
  lemma OnlyWorkspaceIsWritable(t: Template, name: string, pod: PodInputs, v: Volume)
    requires Serves(t, name, pod) && v in t.volumes && v.ClaimVolume? && !v.readOnly
    ensures pod.workspace.Some? && v.claim == name + "-workspace"
  {
    var j :| 0 <= j < |t.volumes| && t.volumes[j] == v;
  }

  // ----- what a GPU adds --------------------------------------------------------------------------

  /**
   Limits with a GPU, resource by resource: one device, or one partition of the profile; memory in
   whole mebibytes and cores if they are asked for; everything else is the user's.
   */
  lemma GpuAddsExactly(name: string, pod: PodInputs, resource: string)
    requires GpuOn(pod)
    ensures var gpu := pod.gpu.value;
            var mig := gpu.provider == "mig";
            var found := AmountOf(Some(BuildTemplate(name, pod).limits), resource);
            if mig && gpu.mig.Some? && gpu.mig.value != "" && resource == "nvidia.com/mig-" + gpu.mig.value then
              found == Some(Quantity(1_000_000_000))
            else if !mig && resource == "nvidia.com/gpu" then found == Some(Quantity(1_000_000_000))
            else if !mig && gpu.hami.Some? && gpu.hami.value.memory.nanos != 0 && resource == "nvidia.com/gpumem" then
              && found.Some?
              && found.value == Quantity(TowardZero(ValueOf(gpu.hami.value.memory), 1_048_576) * 1_000_000_000)
            else if !mig && gpu.hami.Some? && gpu.hami.value.cores > 0 && resource == "nvidia.com/gpucores" then
              found == Some(Quantity(gpu.hami.value.cores * 1_000_000_000))
            else found == AmountOf(pod.limits, resource)
  {
    var gpu := pod.gpu.value;
    GpuLimitsExactly(gpu, resource);
    AmountAdds(OrEmpty(pod.limits), GpuLimits(gpu), resource);
    hide GpuLimits, Units, ValueOf, GpuEnv;
  }

  lemma AmountAdds(m: map<string, Quantity>, more: map<string, Quantity>, resource: string)
    ensures AmountOf(Some(m + more), resource) ==
            if resource in more then Some(more[resource]) else AmountOf(Some(m), resource)
  {
  }

  lemma GpuLimitsExactly(gpu: Gpu, resource: string)
    ensures var mig := gpu.provider == "mig";
            var found := AmountOf(Some(GpuLimits(gpu)), resource);
            if mig && gpu.mig.Some? && gpu.mig.value != "" && resource == "nvidia.com/mig-" + gpu.mig.value then
              found == Some(Quantity(1_000_000_000))
            else if !mig && resource == "nvidia.com/gpu" then found == Some(Quantity(1_000_000_000))
            else if !mig && gpu.hami.Some? && gpu.hami.value.memory.nanos != 0 && resource == "nvidia.com/gpumem" then
              && found.Some?
              && found.value == Quantity(TowardZero(ValueOf(gpu.hami.value.memory), 1_048_576) * 1_000_000_000)
            else if !mig && gpu.hami.Some? && gpu.hami.value.cores > 0 && resource == "nvidia.com/gpucores" then
              found == Some(Quantity(gpu.hami.value.cores * 1_000_000_000))
            else found == None
  {
    GpuNamesDiffer();
    if gpu.hami.Some? {
      assert Memory(gpu.hami.value) == TowardZero(ValueOf(gpu.hami.value.memory), 1_048_576);
    }
    hide Memory, ValueOf, TowardZero;
  }

  /** Without memory or cores to share, a GPU adds no variable. */
  lemma GpuAddsNoEnv(name: string, pod: PodInputs)
    requires GpuOn(pod)
    requires var gpu := pod.gpu.value;
             gpu.provider == "mig" || gpu.hami.None? || (gpu.hami.value.memory.nanos == 0 && gpu.hami.value.cores <= 0)
    ensures BuildTemplate(name, pod).env == [Env("JUPYTER_TOKEN", "", Some(name + "-secret"))]
  {
  }
}
