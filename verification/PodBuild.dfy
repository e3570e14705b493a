/**
 The Pod template a NotebookLab asks for. The functions say what the template holds; the
 classes below build it as the program does, with resource lists as shared references and the
 environment changed in place, and are proved to leave the spec alone.
 */
module PodBuild {
  import opened Prelude

  // ----- the spec ------------------------------------------------------------------------

  /** An amount in billionths, the smallest unit a quantity can carry. */
  datatype Quantity = Quantity(nanos: int)

  const BILLION := 1_000_000_000
  const MEBI := 1024 * 1024

  function Units(n: int): Quantity { Quantity(n * BILLION) }

  /** The amount in whole units, rounded up. */
  function ValueOf(q: Quantity): (r: int)
    ensures (r - 1) * BILLION < q.nanos <= r * BILLION
  {
    -((-q.nanos) / BILLION)
  }

  /** Division of 64-bit numbers: toward zero. */
  function Quotient(a: int, b: int): int
    requires b > 0
  {
    if a >= 0 then a / b else -((-a) / b)
  }

  datatype Hami = Hami(cores: int, memory: Quantity)

  datatype Gpu = Gpu(enable: bool, provider: string, hami: Option<Hami>, mig: Option<string>)

  datatype Toleration = Toleration(key: string, operator: string, effect: string)

  datatype Workspace = Workspace(size: Quantity, storageClass: string, mountPath: string)

  datatype Dataset = Dataset(name: string, pvcName: string, mountPath: string)

  datatype Tmp = Tmp(sizeLimit: Quantity, mountPath: string)

  /** `workspace`, `datasets` and `tmp` are absent if the spec has no storage part. */
  datatype PodInputs = PodInputs(
    image: string,
    limits: Option<map<string, Quantity>>, requests: Option<map<string, Quantity>>,
    tolerations: seq<Toleration>, gpu: Option<Gpu>,
    workspace: Option<Workspace>, datasets: seq<Dataset>, tmp: Option<Tmp>)

  // ----- the template ---------------------------------------------------------------------

  /** An environment variable: a literal value, or a reference to a key of a secret. */
  datatype Env = Env(name: string, value: string, secret: Option<string>)

  datatype Volume =
    | ClaimVolume(name: string, claim: string, readOnly: bool)
    | TmpVolume(limit: Option<Quantity>)

  datatype Mount = Mount(name: string, path: string, readOnly: bool)

  datatype Template = Template(
    image: string, limits: map<string, Quantity>, requests: map<string, Quantity>, env: seq<Env>,
    volumes: seq<Volume>, mounts: seq<Mount>, tolerations: seq<Toleration>, escalation: bool)

  predicate UsesGpu(pod: PodInputs) { pod.gpu.Some? && pod.gpu.value.enable }

  const GPU_TOLERATION := Toleration("nvidia.com/gpu", "Exists", "NoSchedule")

  function Digits(n: nat): string
  {
    var last := [('0' as int + n % 10) as char];
    if n < 10 then last else Digits(n / 10) + last
  }

  function Decimal(n: int): string
  {
    if n < 0 then "-" + Digits(-n) else Digits(n)
  }

  /** The environment after a variable is set: the first of its name gets the value, or it is appended. */
  function SetEnv(env: seq<Env>, name: string, value: string): seq<Env>
  {
    if env == [] then [Env(name, value, None)]
    else if env[0].name == name then [env[0].(value := value)] + env[1..]
    else [env[0]] + SetEnv(env[1..], name, value)
  }

  function Memory(h: Hami): int { Quotient(ValueOf(h.memory), MEBI) }

  /** The extended resources a GPU asks for. */
  function GpuLimits(gpu: Gpu): map<string, Quantity>
  {
    if gpu.provider == "mig" then
      if gpu.mig.Some? && gpu.mig.value != "" then map["nvidia.com/mig-" + gpu.mig.value := Units(1)] else map[]
    else
      map["nvidia.com/gpu" := Units(1)]
      + (if gpu.hami.Some? && gpu.hami.value.memory.nanos != 0
         then map["nvidia.com/gpumem" := Units(Memory(gpu.hami.value))] else map[])
      + (if gpu.hami.Some? && gpu.hami.value.cores > 0
         then map["nvidia.com/gpucores" := Units(gpu.hami.value.cores)] else map[])
  }

  function GpuEnv(env: seq<Env>, gpu: Gpu): seq<Env>
  {
    if gpu.provider == "mig" || gpu.hami.None? then env
    else
      var h := gpu.hami.value;
      var e1 := if h.memory.nanos != 0 then SetEnv(env, "CUDA_VGPU_MEM", Decimal(Memory(h))) else env;
      if h.cores > 0 then SetEnv(e1, "CUDA_VGPU_CORES", Decimal(h.cores)) else e1
  }

  function OrEmpty(m: Option<map<string, Quantity>>): map<string, Quantity>
  {
    if m.Some? then m.value else map[]
  }

  function TokenEnv(name: string): seq<Env>
  {
    [Env("JUPYTER_TOKEN", "", Some(name + "-secret"))]
  }

  function WorkspaceVolumes(name: string, pod: PodInputs): seq<Volume>
  {
    if pod.workspace.Some? then [ClaimVolume("workspace", name + "-workspace", false)] else []
  }

  function WorkspaceMounts(pod: PodInputs): seq<Mount>
  {
    if pod.workspace.Some? then [Mount("workspace", pod.workspace.value.mountPath, false)] else []
  }

  function DatasetVolumes(ds: seq<Dataset>): seq<Volume>
  {
    seq(|ds|, j requires 0 <= j < |ds| => ClaimVolume(ds[j].name, ds[j].pvcName, true))
  }

  function DatasetMounts(ds: seq<Dataset>): seq<Mount>
  {
    seq(|ds|, j requires 0 <= j < |ds| => Mount(ds[j].name, ds[j].mountPath, true))
  }

  function TmpVolumeOf(pod: PodInputs): Volume
  {
    TmpVolume(if pod.tmp.Some? && pod.tmp.value.sizeLimit.nanos != 0 then Some(pod.tmp.value.sizeLimit) else None)
  }

  function TmpMount(pod: PodInputs): Mount
  {
    Mount("tmp", if pod.tmp.Some? && pod.tmp.value.mountPath != "" then pod.tmp.value.mountPath else "/tmp", false)
  }

  /** The template a spec asks for. */
  function BuildTemplate(name: string, pod: PodInputs): Template
  {
    Template(
      pod.image,
      OrEmpty(pod.limits) + (if UsesGpu(pod) then GpuLimits(pod.gpu.value) else map[]),
      OrEmpty(pod.requests),
      if UsesGpu(pod) then GpuEnv(TokenEnv(name), pod.gpu.value) else TokenEnv(name),
      WorkspaceVolumes(name, pod) + DatasetVolumes(pod.datasets) + [TmpVolumeOf(pod)],
      WorkspaceMounts(pod) + DatasetMounts(pod.datasets) + [TmpMount(pod)],
      if UsesGpu(pod) && pod.tolerations == [] then [GPU_TOLERATION] else pod.tolerations,
      UsesGpu(pod))
  }

  // ----- what the template promises ------------------------------------------------------------

  /** User limits are overridden only under the device plugin's names. */
  lemma LimitsOverrideOnlyGpu(name: string, pod: PodInputs, resource: string)
    ensures var limits := BuildTemplate(name, pod).limits;
            !("nvidia.com/" <= resource) ==>
              (resource in limits <==> resource in OrEmpty(pod.limits))
              && (resource in limits ==> limits[resource] == OrEmpty(pod.limits)[resource])
  {
    if UsesGpu(pod) {
      var gpu := pod.gpu.value;
      GpuNames(gpu);
      hide GpuLimits;
    }
  }

  lemma GpuNames(gpu: Gpu)
    ensures forall resource :: resource in GpuLimits(gpu) ==> "nvidia.com/" <= resource
  {
    assert "nvidia.com/" <= "nvidia.com/gpu" && "nvidia.com/" <= "nvidia.com/gpumem";
    assert "nvidia.com/" <= "nvidia.com/gpucores";
    if gpu.mig.Some? {
      assert "nvidia.com/mig-" + gpu.mig.value == "nvidia.com/" + ("mig-" + gpu.mig.value);
    }
  }

  predicate UniqueNames(env: seq<Env>)
  {
    forall i, j :: 0 <= i < j < |env| ==> env[i].name != env[j].name
  }

  /** Setting a variable keeps names unique and every other entry, in order. */
  lemma {:induction false} SetEnvKeeps(env: seq<Env>, name: string, value: string)
    ensures var r := SetEnv(env, name, value);
            && |env| <= |r| <= |env| + 1
            && (forall j :: 0 <= j < |env| ==> r[j].name == env[j].name && r[j].secret == env[j].secret)
            && (forall j :: 0 <= j < |env| && env[j].name != name ==> r[j] == env[j])
            && (|r| == |env| + 1 <==> forall j :: 0 <= j < |env| ==> env[j].name != name)
            && (|r| == |env| + 1 ==> r[|env|] == Env(name, value, None))
  {
    var r := SetEnv(env, name, value);
    if env != [] && env[0].name != name {
      SetEnvKeeps(env[1..], name, value);
      assert forall j :: 0 < j < |env| ==> env[j] == env[1..][j - 1];
      assert forall j :: 0 < j < |r| ==> r[j] == SetEnv(env[1..], name, value)[j - 1];
    }
  }

  /** Names stay unique, so the variable then has the value that was set. */
  lemma {:induction false} SetEnvUnique(env: seq<Env>, name: string, value: string)
    requires UniqueNames(env)
    ensures var r := SetEnv(env, name, value);
            && UniqueNames(r)
            && (exists j :: 0 <= j < |r| && r[j].name == name)
            && (forall j :: 0 <= j < |r| && r[j].name == name ==> r[j].value == value)
  {
    var r := SetEnv(env, name, value);
    SetEnvKeeps(env, name, value);
    if env == [] {
      assert r[0].name == name;
    } else if env[0].name == name {
      assert r[0].name == name;
    } else {
      var rest := SetEnv(env[1..], name, value);
      forall i, j | 0 <= i < j < |env| - 1 ensures env[1..][i].name != env[1..][j].name {
        assert env[1..][i] == env[i + 1] && env[1..][j] == env[j + 1];
      }
      SetEnvUnique(env[1..], name, value);
      assert forall j :: 0 < j < |r| ==> r[j] == rest[j - 1];
      var j :| 0 <= j < |rest| && rest[j].name == name;
      assert r[j + 1].name == name;
    }
  }

  /** Entries in front that do not match are passed over. */
  lemma {:induction false} SetEnvSkips(env: seq<Env>, name: string, value: string, i: nat)
    requires i <= |env| && forall j :: 0 <= j < i ==> env[j].name != name
    ensures SetEnv(env, name, value) == env[..i] + SetEnv(env[i..], name, value)
  {
    if i > 0 {
      SetEnvSkips(env[1..], name, value, i - 1);
      assert env[1..][i - 1..] == env[i..];
      assert env[..i] == [env[0]] + env[1..][..i - 1];
    } else {
      assert env[0..] == env;
    }
  }

  /** Reading a decimal number back. */
  function Parse(s: string): int
    decreases |s|
  {
    if s == "" then 0
    else if s[0] == '-' then -Parse(s[1..])
    else 10 * Parse(s[..|s| - 1]) + (s[|s| - 1] as int - '0' as int)
  }

  lemma {:induction false} DigitsParse(n: nat)
    ensures Digits(n) != "" && (forall j :: 0 <= j < |Digits(n)| ==> '0' <= Digits(n)[j] <= '9')
    ensures Parse(Digits(n)) == n
  {
    if n >= 10 {
      DigitsParse(n / 10);
      var s := Digits(n);
      assert s[..|s| - 1] == Digits(n / 10);
    }
  }

  lemma DecimalParses(n: int)
    ensures Parse(Decimal(n)) == n
  {
    if n < 0 {
      DigitsParse(-n);
      assert Decimal(n)[1..] == Digits(-n);
    } else {
      DigitsParse(n);
    }
  }

  lemma GpuNamesDiffer()
    ensures "nvidia.com/gpu" != "nvidia.com/gpumem" && "nvidia.com/gpu" != "nvidia.com/gpucores"
    ensures "nvidia.com/gpumem" != "nvidia.com/gpucores"
  {
    assert |"nvidia.com/gpu"| == 14 && |"nvidia.com/gpumem"| == 17 && |"nvidia.com/gpucores"| == 19;
  }

  lemma EnvNamesDiffer()
    ensures "JUPYTER_TOKEN" != "CUDA_VGPU_MEM" && "JUPYTER_TOKEN" != "CUDA_VGPU_CORES"
    ensures "CUDA_VGPU_MEM" != "CUDA_VGPU_CORES"
  {
    assert "JUPYTER_TOKEN"[0] == 'J' && "CUDA_VGPU_MEM"[0] == 'C' && "CUDA_VGPU_CORES"[0] == 'C';
    assert |"CUDA_VGPU_MEM"| == 13 && |"CUDA_VGPU_CORES"| == 15;
  }

  lemma SetEnvTail(t: Env, rest: seq<Env>, name: string, value: string)
    requires t.name != name
    ensures SetEnv([t] + rest, name, value) == [t] + SetEnv(rest, name, value)
  {
    assert ([t] + rest)[1..] == rest;
  }

  /** Memory and cores come in this order behind the token, each only if asked for. */
  lemma GpuEnvIs(name: string, h: Hami, gpu: Gpu)
    requires gpu.provider != "mig" && gpu.hami == Some(h)
    ensures GpuEnv(TokenEnv(name), gpu) ==
            TokenEnv(name)
            + (if h.memory.nanos != 0 then [Env("CUDA_VGPU_MEM", Decimal(Memory(h)), None)] else [])
            + (if h.cores > 0 then [Env("CUDA_VGPU_CORES", Decimal(h.cores), None)] else [])
  {
    hide Decimal, Memory;
    EnvNamesDiffer();
    var token := Env("JUPYTER_TOKEN", "", Some(name + "-secret"));
    var memory := Env("CUDA_VGPU_MEM", Decimal(Memory(h)), None);
    assert TokenEnv(name) == [token] + [];
    SetEnvTail(token, [], "CUDA_VGPU_MEM", memory.value);
    SetEnvTail(token, [], "CUDA_VGPU_CORES", Decimal(h.cores));
    SetEnvTail(token, [memory], "CUDA_VGPU_CORES", Decimal(h.cores));
    assert [memory] == [memory] + [];
    SetEnvTail(memory, [], "CUDA_VGPU_CORES", Decimal(h.cores));
  }

  /**
   The numbers of the device plugin agree in limits and environment: memory in whole
   mebibytes, rounded down after the quantity was rounded up to bytes, and cores.
   */
  lemma GpuNumbersAgree(name: string, pod: PodInputs)
    requires UsesGpu(pod) && pod.gpu.value.provider != "mig" && pod.gpu.value.hami.Some?
    ensures var t := BuildTemplate(name, pod);
            var h := pod.gpu.value.hami.value;
            && UniqueNames(t.env) && TokenEnv(name)[0] in t.env
            && "nvidia.com/gpu" in t.limits && t.limits["nvidia.com/gpu"] == Units(1)
            && (h.memory.nanos > 0 ==>
                  && "nvidia.com/gpumem" in t.limits
                  && t.limits["nvidia.com/gpumem"] == Units(ValueOf(h.memory) / MEBI)
                  && Env("CUDA_VGPU_MEM", Decimal(ValueOf(h.memory) / MEBI), None) in t.env)
            && (h.cores > 0 ==>
                  && "nvidia.com/gpucores" in t.limits && t.limits["nvidia.com/gpucores"] == Units(h.cores)
                  && Env("CUDA_VGPU_CORES", Decimal(h.cores), None) in t.env)
  {
    hide Decimal, ValueOf, Digits;
    var h := pod.gpu.value.hami.value;
    GpuNamesDiffer();
    EnvNamesDiffer();
    GpuEnvIs(name, h, pod.gpu.value);
    assert h.memory.nanos > 0 ==> Memory(h) == ValueOf(h.memory) / MEBI;
    hide GpuEnv, Memory;
  }
}
