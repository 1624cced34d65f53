/**
  The EaaS-to-CAMARA translator, `build_camara_app_manifest` of
  src/app/utils/eaas2camara_builder.py: it turns a resolved EaaS application
  descriptor into a CAMARA Edge Application Management AppManifest.

  The functions here specify each part of the manifest (image path, resource
  pool, network interfaces, component list); the methods build it with the
  loops of the source and are proved equal to those functions.
 */
module Eaas2Camara {
  import opened Wrappers
  import opened Sanitize
  import opened EaasModels
  import opened CamaraModels
  import Seqs

  // ---------------------------------------------------------------------------
  // Image location (eaas2camara_builder.py:110-127)
  // ---------------------------------------------------------------------------

  const RegistryPrefix := "docker.io/library/"

  /** `getattr(img, "swImage", None) or getattr(img, "name", "app")`. */
  function ImageName(img: SwImageDesc): (r: string)
    ensures img.swImage.Some? && img.swImage.value != "" ==> r == img.swImage.value
    ensures (img.swImage.None? || img.swImage == Some("")) && img.name.Some? ==> r == img.name.value
    ensures (img.swImage.None? || img.swImage == Some("")) && img.name.None? ==> r == "app"
  {
    if img.swImage.Some? && img.swImage.value != "" then img.swImage.value else img.name.GetOr("app")
  }

  /** `getattr(img, "version", "latest")`. */
  function ImageVersion(img: SwImageDesc): (r: string)
    ensures img.version.Some? ==> r == img.version.value
    ensures img.version.None? ==> r == "latest"
  {
    img.version.GetOr("latest")
  }

  /** The image path of the manifest, taken from the first image if there is one. */
  function ImagePath(images: Option<seq<SwImageDesc>>): (p: string)
    ensures |p| > |RegistryPrefix| && p[..|RegistryPrefix|] == RegistryPrefix
    ensures images.None? || images == Some([]) ==> p == "docker.io/library/app:latest"
  {
    var (name, version) :=
      if images.Some? && images.value != [] then (ImageName(images.value[0]), ImageVersion(images.value[0]))
      else ("app", "latest");
    RegistryPrefix + name + ":" + version
  }

  /** Only the first image matters: the images after it never change the path. */
  lemma ImagePathUsesFirstImage(img: SwImageDesc, rest: seq<SwImageDesc>)
    ensures ImagePath(Some([img] + rest)) == ImagePath(Some([img]))
    ensures ImagePath(Some([img])) == RegistryPrefix + ImageName(img) + ":" + ImageVersion(img)
  {
  }

  // ---------------------------------------------------------------------------
  // Resource aggregation (eaas2camara_builder.py:130-160)
  // ---------------------------------------------------------------------------

  /** The CPU a container adds: its request, or its limit when the request is None. */
  function ContainerCpu(oc: OsContainerDesc): (c: int)
    ensures oc.requestedCpuResources.Some? ==> c == oc.requestedCpuResources.value
    ensures oc.requestedCpuResources.None? && oc.cpuResourceLimit.Some? ==> c == oc.cpuResourceLimit.value
    ensures oc.requestedCpuResources.None? && oc.cpuResourceLimit.None? ==> c == 0
  {
    match oc.requestedCpuResources
    case Some(c) => c
    case None => oc.cpuResourceLimit.GetOr(0)
  }

  /** The memory (MB) a container adds: its limit, or its request when the limit is None. */
  function ContainerMemory(oc: OsContainerDesc): (m: int)
    ensures oc.memoryResourceLimit.Some? ==> m == oc.memoryResourceLimit.value
    ensures oc.memoryResourceLimit.None? && oc.requestedMemoryResource.Some? ==> m == oc.requestedMemoryResource.value
    ensures oc.memoryResourceLimit.None? && oc.requestedMemoryResource.None? ==> m == 0
  {
    match oc.memoryResourceLimit
    case Some(m) => m
    case None => oc.requestedMemoryResource.GetOr(0)
  }

  /** The containers of a VDU (`vdu.osContainerDesc or []`). */
  function ContainersOf(vdu: Vdu): seq<OsContainerDesc> {
    vdu.osContainerDesc.GetOr([])
  }

  /** The CPU the containers of one VDU add. */
  function VduCpu(vdu: Vdu): int {
    Seqs.Sum(ContainersOf(vdu), ContainerCpu)
  }

  /** The memory (MB) the containers of one VDU add. */
  function VduMemory(vdu: Vdu): int {
    Seqs.Sum(ContainersOf(vdu), ContainerMemory)
  }

  /** `total_cpu`: the CPU of every container of every VDU. */
  function TotalCpu(vdus: seq<Vdu>): int {
    Seqs.Sum(vdus, VduCpu)
  }

  /** `total_mem`: the memory of every container of every VDU. */
  function TotalMemory(vdus: seq<Vdu>): int {
    Seqs.Sum(vdus, VduMemory)
  }

  /**
    The CPU pool of the manifest: the totals, a non-positive CPU total becoming 1
    and a non-positive memory total 1024, on a one-node topology sized by them.
   */
  function CpuPoolOf(vdus: seq<Vdu>): (pool: CpuPool)
    ensures pool.numCPU >= 1 && pool.memory >= 1
    ensures pool.topology == Topology(1, pool.numCPU, pool.memory)
    ensures pool.numCPU == (if TotalCpu(vdus) > 0 then TotalCpu(vdus) else 1)
    ensures pool.memory == (if TotalMemory(vdus) > 0 then TotalMemory(vdus) else 1024)
  {
    var cpu := if TotalCpu(vdus) <= 0 then 1 else TotalCpu(vdus);
    var memory := if TotalMemory(vdus) <= 0 then 1024 else TotalMemory(vdus);
    CpuPool(cpu, memory, Topology(1, if 1 >= cpu then 1 else cpu, memory))
  }

  /** The totals, and hence the CPU pool, do not depend on the order of the VDUs. */
  lemma CpuPoolOrderIndependent(a: seq<Vdu>, b: seq<Vdu>)
    requires multiset(a) == multiset(b)
    ensures TotalCpu(a) == TotalCpu(b) && TotalMemory(a) == TotalMemory(b)
    ensures CpuPoolOf(a) == CpuPoolOf(b)
  {
    Seqs.SumPermutation(a, b, VduCpu);
    Seqs.SumPermutation(a, b, VduMemory);
  }

  /** The totals of two VDU lists put together are the sums of their totals. */
  lemma TotalsAppend(a: seq<Vdu>, b: seq<Vdu>)
    ensures TotalCpu(a + b) == TotalCpu(a) + TotalCpu(b)
    ensures TotalMemory(a + b) == TotalMemory(a) + TotalMemory(b)
  {
    Seqs.SumAppend(a, b, VduCpu);
    Seqs.SumAppend(a, b, VduMemory);
  }

  /** Accumulates the totals as the nested loop of eaas2camara_builder.py:130-149 does. */
  method AggregateResources(vdus: seq<Vdu>) returns (totalCpu: int, totalMem: int)
    ensures totalCpu == TotalCpu(vdus) && totalMem == TotalMemory(vdus)
  {
    totalCpu, totalMem := 0, 0;
    var i := 0;
    while i < |vdus|
      invariant 0 <= i <= |vdus|
      invariant totalCpu == TotalCpu(vdus[..i]) && totalMem == TotalMemory(vdus[..i])
    {
      var ocs := ContainersOf(vdus[i]);
      ghost var cpuBefore, memBefore := totalCpu, totalMem;
      var j := 0;
      while j < |ocs|
        invariant 0 <= j <= |ocs|
        invariant totalCpu == cpuBefore + Seqs.Sum(ocs[..j], ContainerCpu)
        invariant totalMem == memBefore + Seqs.Sum(ocs[..j], ContainerMemory)
      {
        var oc := ocs[j];
        if oc.requestedCpuResources.Some? {
          totalCpu := totalCpu + oc.requestedCpuResources.value;
        } else if oc.cpuResourceLimit.Some? {
          totalCpu := totalCpu + oc.cpuResourceLimit.value;
        }
        if oc.memoryResourceLimit.Some? {
          totalMem := totalMem + oc.memoryResourceLimit.value;
        } else if oc.requestedMemoryResource.Some? {
          totalMem := totalMem + oc.requestedMemoryResource.value;
        }
        Seqs.SumStep(ocs, j, ContainerCpu);
        Seqs.SumStep(ocs, j, ContainerMemory);
        j := j + 1;
      }
      Seqs.TakeAll(ocs);
      Seqs.SumStep(vdus, i, VduCpu);
      Seqs.SumStep(vdus, i, VduMemory);
      i := i + 1;
    }
    Seqs.TakeAll(vdus);
  }

  // ---------------------------------------------------------------------------
  // Network interfaces (eaas2camara_builder.py:176-224)
  // ---------------------------------------------------------------------------

  function UpperChar(c: char): char {
    if 'a' <= c <= 'z' then (c as int - 32) as char else c
  }

  /** `str.upper()` on ASCII letters. */
  function Upper(s: string): (r: string)
    ensures |r| == |s|
    ensures forall i :: 0 <= i < |s| ==> r[i] == UpperChar(s[i])
  {
    if s == [] then [] else Upper(s[..|s| - 1]) + [UpperChar(s[|s| - 1])]
  }

  /**
    The protocol of a port: its value upper-cased ("TCP" when it is absent or
    empty), looked up among the `camara.Protocol` members, ANY when unknown.
   */
  function ResolveProtocol(protocol: Option<string>): (p: Protocol)
    ensures protocol.None? || protocol == Some("") ==> p == TCP
    ensures protocol.Some? && protocol.value != "" && ProtocolByName(Upper(protocol.value)).Some? ==>
              p == ProtocolByName(Upper(protocol.value)).value
    ensures protocol.Some? && protocol.value != "" && ProtocolByName(Upper(protocol.value)).None? ==> p == ANY
  {
    assert Upper("TCP") == "TCP" by { UpperAscii("TCP"); }
    var name := Upper(if protocol.Some? && protocol.value != "" then protocol.value else "TCP");
    match ProtocolByName(name)
    case Some(p) => p
    case None => ANY
  }

  /** The lookup ignores case: a protocol and its upper-cased form resolve alike. */
  lemma ResolveProtocolIgnoresCase(s: string)
    ensures ResolveProtocol(Some(s)) == ResolveProtocol(Some(Upper(s)))
  {
    UpperIdempotent(s);
  }

  /** Upper-casing leaves a string without lower-case letters unchanged. */
  lemma UpperAscii(s: string)
    requires forall i :: 0 <= i < |s| ==> !('a' <= s[i] <= 'z')
    ensures Upper(s) == s
  {
    assert forall i :: 0 <= i < |s| ==> Upper(s)[i] == s[i];
  }

  lemma UpperIs(s: string, t: string)
    requires |s| == |t| && forall i :: 0 <= i < |s| ==> UpperChar(s[i]) == t[i]
    ensures Upper(s) == t
  {
  }

  /** Lower- and mixed-case names resolve to their member; unknown names to ANY; no protocol to TCP. */
  lemma ResolveProtocolExamples()
    ensures ResolveProtocol(Some("udp")) == UDP
    ensures ResolveProtocol(Some("Tcp")) == TCP
    ensures ResolveProtocol(Some("sctp")) == ANY
    ensures ResolveProtocol(None) == TCP
  {
    UpperIs("udp", "UDP");
    UpperIs("Tcp", "TCP");
    UpperIs("sctp", "SCTP");
  }

  lemma UpperIdempotent(s: string)
    ensures Upper(Upper(s)) == Upper(s)
  {
    var u := Upper(s);
    assert forall i :: 0 <= i < |u| ==> Upper(u)[i] == u[i];
  }

  /** The string a port's interface id is sanitized from: its name, else `<vduId>_<cpdId>`. */
  function InterfaceSourceName(vduId: string, cpdId: string, pd: PortData): (r: string)
    ensures r != ""
    ensures pd.name.Some? && pd.name.value != "" ==> r == pd.name.value
    ensures pd.name.None? || pd.name == Some("") ==> r == vduId + "_" + cpdId
  {
    if pd.name.Some? && pd.name.value != "" then pd.name.value else vduId + "_" + cpdId
  }

  predicate WellFormedInterface(ni: NetworkInterface) {
    IsInterfaceId(ni.interfaceId) && ni.visibilityType == VisibilityInternal
  }

  /** The interface one port yields. */
  function PortInterface(vduId: string, cpdId: string, pd: PortData): (ni: NetworkInterface)
    ensures WellFormedInterface(ni) && ni.port == pd.port
    ensures ni.interfaceId == SanitizeInterfaceId(InterfaceSourceName(vduId, cpdId, pd))
    ensures ni.protocol == ResolveProtocol(pd.protocol)
  {
    NetworkInterface(SanitizeInterfaceId(InterfaceSourceName(vduId, cpdId, pd)),
                     ResolveProtocol(pd.protocol), pd.port, VisibilityInternal)
  }

  /** A port whose name already is a valid interface id keeps it as the id. */
  lemma PortInterfaceKeepsValidName(vduId: string, cpdId: string, pd: PortData)
    requires pd.name.Some? && IsInterfaceId(pd.name.value)
    ensures PortInterface(vduId, cpdId, pd).interfaceId == pd.name.value
  {
    SanitizeInterfaceIdKeepsValid(pd.name.value);
  }

  /** One interface per port, in port order. */
  function PortInterfaces(vduId: string, cpdId: string, pds: seq<PortData>): (r: seq<NetworkInterface>)
    ensures |r| == |pds|
  {
    if pds == [] then []
    else PortInterfaces(vduId, cpdId, pds[..|pds| - 1]) + [PortInterface(vduId, cpdId, pds[|pds| - 1])]
  }

  /** The k-th interface is the one the k-th port yields: same port, order kept. */
  lemma {:induction false} PortInterfacesAt(vduId: string, cpdId: string, pds: seq<PortData>, k: nat)
    requires k < |pds|
    ensures PortInterfaces(vduId, cpdId, pds)[k] == PortInterface(vduId, cpdId, pds[k])
    ensures PortInterfaces(vduId, cpdId, pds)[k].port == pds[k].port
  {
    if k < |pds| - 1 {
      PortInterfacesAt(vduId, cpdId, pds[..|pds| - 1], k);
    }
  }

  /** Extending the ports by one appends that port's interface. */
  lemma PortInterfacesStep(vduId: string, cpdId: string, pds: seq<PortData>, k: nat)
    requires k < |pds|
    ensures PortInterfaces(vduId, cpdId, pds[..k + 1])
            == PortInterfaces(vduId, cpdId, pds[..k]) + [PortInterface(vduId, cpdId, pds[k])]
  {
    Seqs.PrefixStep(pds, k);
  }

  /** The ports of a service-data entry (`asd.portData or []`). */
  function PortsOf(asd: AdditionalServiceData): seq<PortData> {
    asd.portData.GetOr([])
  }

  /** Number of ports over a list of service-data entries. */
  function ServicePortCount(asds: seq<AdditionalServiceData>): nat {
    if asds == [] then 0 else ServicePortCount(asds[..|asds| - 1]) + |PortsOf(asds[|asds| - 1])|
  }

  /** The interfaces of the ports of every service-data entry, in list order. */
  function ServiceInterfaces(vduId: string, cpdId: string, asds: seq<AdditionalServiceData>): (r: seq<NetworkInterface>)
    ensures |r| == ServicePortCount(asds)
  {
    if asds == [] then []
    else ServiceInterfaces(vduId, cpdId, asds[..|asds| - 1]) + PortInterfaces(vduId, cpdId, PortsOf(asds[|asds| - 1]))
  }

  /** Every interface derived from a list of ports has a valid id and internal visibility. */
  lemma {:induction false} PortInterfacesWellFormed(vduId: string, cpdId: string, pds: seq<PortData>)
    ensures Seqs.All(PortInterfaces(vduId, cpdId, pds), WellFormedInterface)
  {
    if pds != [] {
      PortInterfacesWellFormed(vduId, cpdId, pds[..|pds| - 1]);
      Seqs.AllSnoc(PortInterfaces(vduId, cpdId, pds[..|pds| - 1]), PortInterface(vduId, cpdId, pds[|pds| - 1]), WellFormedInterface);
    }
  }

  /** Every interface derived from service data has a valid id and internal visibility. */
  lemma {:induction false} ServiceInterfacesWellFormed(vduId: string, cpdId: string, asds: seq<AdditionalServiceData>)
    ensures Seqs.All(ServiceInterfaces(vduId, cpdId, asds), WellFormedInterface)
  {
    if asds != [] {
      var pds := PortsOf(asds[|asds| - 1]);
      ServiceInterfacesWellFormed(vduId, cpdId, asds[..|asds| - 1]);
      PortInterfacesWellFormed(vduId, cpdId, pds);
      Seqs.AllAppend(ServiceInterfaces(vduId, cpdId, asds[..|asds| - 1]), PortInterfaces(vduId, cpdId, pds), WellFormedInterface);
    }
  }

  /** The service-data entries of a virtual connection point (`vcpd.additionalServiceData or []`). */
  function ServicesOf(vcpd: VirtualCpd): seq<AdditionalServiceData> {
    vcpd.additionalServiceData.GetOr([])
  }

  /** Number of ports over a list of virtual connection points. */
  function VcpdPortCount(vcpds: seq<VirtualCpd>): nat {
    if vcpds == [] then 0 else VcpdPortCount(vcpds[..|vcpds| - 1]) + ServicePortCount(ServicesOf(vcpds[|vcpds| - 1]))
  }

  /** The interfaces a VDU gets from the connection points listed for it: one per port, in order. */
  function VcpdInterfaces(vduId: string, vcpds: seq<VirtualCpd>): (r: seq<NetworkInterface>)
    ensures |r| == VcpdPortCount(vcpds)
  {
    if vcpds == [] then []
    else
      var v := vcpds[|vcpds| - 1];
      VcpdInterfaces(vduId, vcpds[..|vcpds| - 1]) + ServiceInterfaces(vduId, v.cpdId, ServicesOf(v))
  }

  /** Every interface a VDU gets has a valid id and internal visibility. */
  lemma {:induction false} VcpdInterfacesWellFormed(vduId: string, vcpds: seq<VirtualCpd>)
    ensures Seqs.All(VcpdInterfaces(vduId, vcpds), WellFormedInterface)
  {
    if vcpds != [] {
      var v := vcpds[|vcpds| - 1];
      VcpdInterfacesWellFormed(vduId, vcpds[..|vcpds| - 1]);
      ServiceInterfacesWellFormed(vduId, v.cpdId, ServicesOf(v));
      Seqs.AllAppend(VcpdInterfaces(vduId, vcpds[..|vcpds| - 1]), ServiceInterfaces(vduId, v.cpdId, ServicesOf(v)), WellFormedInterface);
    }
  }

  // ---------------------------------------------------------------------------
  // Grouping virtual connection points by VDU (eaas2camara_builder.py:177-181)
  // ---------------------------------------------------------------------------

  /** The VDU ids a virtual connection point lists (`vcpd.vdu or []`). */
  function VduIdsOf(vcpd: VirtualCpd): seq<string> {
    vcpd.vdu.GetOr([])
  }

  function Occurrences(ids: seq<string>, id: string): nat {
    if ids == [] then 0 else Occurrences(ids[..|ids| - 1], id) + (if ids[|ids| - 1] == id then 1 else 0)
  }

  function Repeat(v: VirtualCpd, n: nat): (r: seq<VirtualCpd>)
    ensures |r| == n
  {
    if n == 0 then [] else Repeat(v, n - 1) + [v]
  }

  /** `n` copies of `v` hold nothing but `v`. */
  lemma {:induction false} RepeatMembers(v: VirtualCpd, n: nat, x: VirtualCpd)
    requires x in Repeat(v, n)
    ensures x == v
  {
    if n > 0 && x in Repeat(v, n - 1) {
      RepeatMembers(v, n - 1, x);
    }
  }

  /**
    The virtual connection points recorded for a VDU id, in list order, each as
    many times as it lists that id.
   */
  function VcpdsOf(vcpds: seq<VirtualCpd>, vduId: string): (r: seq<VirtualCpd>)
    ensures |r| == Seqs.Sum(vcpds, v => Occurrences(VduIdsOf(v), vduId))
  {
    if vcpds == [] then []
    else
      var v := vcpds[|vcpds| - 1];
      VcpdsOf(vcpds[..|vcpds| - 1], vduId) + Repeat(v, Occurrences(VduIdsOf(v), vduId))
  }

  /** Only connection points that list a VDU id are recorded for it. */
  lemma {:induction false} VcpdsOfSound(vcpds: seq<VirtualCpd>, vduId: string, v: VirtualCpd)
    requires v in VcpdsOf(vcpds, vduId)
    ensures v in vcpds && vduId in VduIdsOf(v)
  {
    var front := vcpds[..|vcpds| - 1];
    var last := vcpds[|vcpds| - 1];
    Seqs.DropLast(vcpds);
    if v in VcpdsOf(front, vduId) {
      VcpdsOfSound(front, vduId, v);
    } else {
      RepeatMembers(last, Occurrences(VduIdsOf(last), vduId), v);
      OccurrencesPositive(VduIdsOf(last), vduId);
    }
  }

  lemma {:induction false} OccurrencesPositive(ids: seq<string>, id: string)
    ensures Occurrences(ids, id) > 0 <==> id in ids
  {
    if ids != [] {
      OccurrencesPositive(ids[..|ids| - 1], id);
      Seqs.DropLast(ids);
    }
  }

  /** Every connection point that lists a VDU id is recorded for it. */
  lemma {:induction false} VcpdsOfComplete(vcpds: seq<VirtualCpd>, vduId: string, v: VirtualCpd)
    requires v in vcpds && vduId in VduIdsOf(v)
    ensures v in VcpdsOf(vcpds, vduId)
  {
    var last := vcpds[|vcpds| - 1];
    if v == last {
      OccurrencesPositive(VduIdsOf(v), vduId);
      var r := Repeat(v, Occurrences(VduIdsOf(v), vduId));
      assert r[0] in r;
    } else {
      Seqs.DropLast(vcpds);
      VcpdsOfComplete(vcpds[..|vcpds| - 1], vduId, v);
    }
  }

  /** `vcpd_by_vdu_id.get(vduId, [])`. */
  function GroupFor(byVdu: map<string, seq<VirtualCpd>>, vduId: string): seq<VirtualCpd> {
    if vduId in byVdu then byVdu[vduId] else []
  }

  lemma OccurrencesStep(ids: seq<string>, j: nat, id: string)
    requires j < |ids|
    ensures Occurrences(ids[..j + 1], id) == Occurrences(ids[..j], id) + (if ids[j] == id then 1 else 0)
  {
    Seqs.PrefixStep(ids, j);
  }

  lemma VcpdsOfStep(vcpds: seq<VirtualCpd>, i: nat, id: string)
    requires i < |vcpds|
    ensures VcpdsOf(vcpds[..i + 1], id) == VcpdsOf(vcpds[..i], id) + Repeat(vcpds[i], Occurrences(VduIdsOf(vcpds[i]), id))
  {
    Seqs.PrefixStep(vcpds, i);
  }

  /**
    One `setdefault(vduId, []).append(vcpd)` extends the group of `vduId` by one
    copy and leaves every other group as it was. `base` is what the groups held
    before the current connection point.
   */
  lemma AppendToGroup(byVdu: map<string, seq<VirtualCpd>>, base: string -> seq<VirtualCpd>,
                      v: VirtualCpd, ids: seq<string>, j: nat)
    requires j < |ids|
    requires forall id :: GroupFor(byVdu, id) == base(id) + Repeat(v, Occurrences(ids[..j], id))
    ensures forall id :: GroupFor(byVdu[ids[j] := GroupFor(byVdu, ids[j]) + [v]], id)
                         == base(id) + Repeat(v, Occurrences(ids[..j + 1], id))
  {
    forall id
      ensures GroupFor(byVdu[ids[j] := GroupFor(byVdu, ids[j]) + [v]], id)
              == base(id) + Repeat(v, Occurrences(ids[..j + 1], id))
    {
      AppendToGroupAt(byVdu, base(id), v, ids, j, id);
    }
  }

  /** `AppendToGroup` for one id, whose group held `base` before the current connection point. */
  lemma AppendToGroupAt(byVdu: map<string, seq<VirtualCpd>>, base: seq<VirtualCpd>,
                        v: VirtualCpd, ids: seq<string>, j: nat, id: string)
    requires j < |ids|
    requires GroupFor(byVdu, id) == base + Repeat(v, Occurrences(ids[..j], id))
    ensures GroupFor(byVdu[ids[j] := GroupFor(byVdu, ids[j]) + [v]], id)
            == base + Repeat(v, Occurrences(ids[..j + 1], id))
  {
    OccurrencesStep(ids, j, id);
    if id == ids[j] {
      Seqs.AppendAssoc(base, Repeat(v, Occurrences(ids[..j], id)), [v]);
    }
  }

  /** Builds `vcpd_by_vdu_id` with `setdefault(...).append`, eaas2camara_builder.py:177-181. */
  method GroupVcpdsByVdu(vcpds: seq<VirtualCpd>) returns (byVdu: map<string, seq<VirtualCpd>>)
    ensures forall id :: GroupFor(byVdu, id) == VcpdsOf(vcpds, id)
  {
    byVdu := map[];
    var i := 0;
    while i < |vcpds|
      invariant 0 <= i <= |vcpds|
      invariant forall id :: GroupFor(byVdu, id) == VcpdsOf(vcpds[..i], id)
    {
      var vcpd := vcpds[i];
      var ids := VduIdsOf(vcpd);
      forall id ensures GroupFor(byVdu, id) == VcpdsOf(vcpds[..i], id) + Repeat(vcpd, Occurrences(ids[..0], id)) {
        Seqs.AppendNil(VcpdsOf(vcpds[..i], id));
      }
      var j := 0;
      while j < |ids|
        invariant 0 <= j <= |ids|
        invariant forall id :: GroupFor(byVdu, id) == VcpdsOf(vcpds[..i], id) + Repeat(vcpd, Occurrences(ids[..j], id))
      {
        AppendToGroup(byVdu, id => VcpdsOf(vcpds[..i], id), vcpd, ids, j);
        byVdu := byVdu[ids[j] := GroupFor(byVdu, ids[j]) + [vcpd]];
        j := j + 1;
      }
      Seqs.TakeAll(ids);
      forall id ensures GroupFor(byVdu, id) == VcpdsOf(vcpds[..i + 1], id) {
        VcpdsOfStep(vcpds, i, id);
      }
      i := i + 1;
    }
    Seqs.TakeAll(vcpds);
  }

  /** The interfaces of one VDU, built by the triple loop of eaas2camara_builder.py:188-224. */
  method DeriveInterfaces(vduId: string, group: seq<VirtualCpd>) returns (netifs: seq<NetworkInterface>)
    ensures netifs == VcpdInterfaces(vduId, group)
  {
    netifs := [];
    var i := 0;
    while i < |group|
      invariant 0 <= i <= |group|
      invariant netifs == VcpdInterfaces(vduId, group[..i])
    {
      var vcpd := group[i];
      var asds := ServicesOf(vcpd);
      ghost var before := netifs;
      var j := 0;
      while j < |asds|
        invariant 0 <= j <= |asds|
        invariant netifs == before + ServiceInterfaces(vduId, vcpd.cpdId, asds[..j])
      {
        var pds := PortsOf(asds[j]);
        ghost var outer := netifs;
        var k := 0;
        while k < |pds|
          invariant 0 <= k <= |pds|
          invariant netifs == outer + PortInterfaces(vduId, vcpd.cpdId, pds[..k])
        {
          var ni := PortInterface(vduId, vcpd.cpdId, pds[k]);
          PortInterfacesStep(vduId, vcpd.cpdId, pds, k);
          Seqs.AppendAssoc(outer, PortInterfaces(vduId, vcpd.cpdId, pds[..k]), [ni]);
          netifs := netifs + [ni];
          k := k + 1;
        }
        Seqs.TakeAll(pds);
        Seqs.AppendAssoc(before, ServiceInterfaces(vduId, vcpd.cpdId, asds[..j]), PortInterfaces(vduId, vcpd.cpdId, pds));
        Seqs.PrefixStep(asds, j);
        j := j + 1;
      }
      Seqs.TakeAll(asds);
      Seqs.PrefixStep(group, i);
      i := i + 1;
    }
    Seqs.TakeAll(group);
  }

  // ---------------------------------------------------------------------------
  // Components (eaas2camara_builder.py:182-242)
  // ---------------------------------------------------------------------------

  /** The interfaces a VDU gets from the descriptor's virtual connection points. */
  function VduInterfaces(vdu: Vdu, vcpds: seq<VirtualCpd>): seq<NetworkInterface> {
    VcpdInterfaces(vdu.vduId, VcpdsOf(vcpds, vdu.vduId))
  }

  /** `_sanitize_component_name(vdu.name or vdu.vduId)`. */
  function ComponentName(vdu: Vdu): (r: string)
    ensures IsAppName(r)
    ensures vdu.name.Some? && IsAppName(vdu.name.value) ==> r == vdu.name.value
    ensures (vdu.name.None? || vdu.name == Some("")) && IsAppName(vdu.vduId) ==> r == vdu.vduId
  {
    var raw := if vdu.name.Some? && vdu.name.value != "" then vdu.name.value else vdu.vduId;
    if IsAppName(raw) then
      SanitizeAppNameKeepsValid(raw);
      SanitizeComponentName(raw)
    else SanitizeComponentName(raw)
  }

  /** One component per VDU that has at least one interface, in VDU order. */
  function DerivedComponents(vdus: seq<Vdu>, vcpds: seq<VirtualCpd>): (r: seq<ComponentSpecItem>)
    ensures |r| <= |vdus|
  {
    if vdus == [] then []
    else
      var v := vdus[|vdus| - 1];
      var netifs := VduInterfaces(v, vcpds);
      DerivedComponents(vdus[..|vdus| - 1], vcpds)
        + (if netifs != [] then [ComponentSpecItem(ComponentName(v), netifs)] else [])
  }

  /** A component of the manifest: a name in the app-name grammar and well-formed interfaces. */
  predicate ValidComponent(c: ComponentSpecItem) {
    IsAppName(c.componentName) && Seqs.All(c.networkInterfaces, WellFormedInterface)
  }

  /** A derived component: valid, with at least one interface. */
  predicate DerivedComponent(c: ComponentSpecItem) {
    ValidComponent(c) && c.networkInterfaces != []
  }

  /** Every derived component has a valid name, at least one interface, and only well-formed interfaces. */
  lemma {:induction false} DerivedComponentsWellFormed(vdus: seq<Vdu>, vcpds: seq<VirtualCpd>)
    ensures Seqs.All(DerivedComponents(vdus, vcpds), DerivedComponent)
  {
    if vdus != [] {
      var v := vdus[|vdus| - 1];
      var front := DerivedComponents(vdus[..|vdus| - 1], vcpds);
      DerivedComponentsWellFormed(vdus[..|vdus| - 1], vcpds);
      if VduInterfaces(v, vcpds) != [] {
        VcpdInterfacesWellFormed(v.vduId, VcpdsOf(vcpds, v.vduId));
        Seqs.AllSnoc(front, ComponentSpecItem(ComponentName(v), VduInterfaces(v, vcpds)), DerivedComponent);
      } else {
        Seqs.AppendNil(front);
      }
    }
  }

  lemma DerivedComponentsStep(vdus: seq<Vdu>, i: nat, vcpds: seq<VirtualCpd>)
    requires i < |vdus|
    ensures DerivedComponents(vdus[..i + 1], vcpds)
            == DerivedComponents(vdus[..i], vcpds)
               + (if VduInterfaces(vdus[i], vcpds) != [] then [ComponentSpecItem(ComponentName(vdus[i]), VduInterfaces(vdus[i], vcpds))] else [])
  {
    Seqs.PrefixStep(vdus, i);
  }

  /** The component list is derived VDU by VDU: that of a concatenation is the concatenation. */
  lemma {:induction false} DerivedComponentsAppend(a: seq<Vdu>, b: seq<Vdu>, vcpds: seq<VirtualCpd>)
    ensures DerivedComponents(a + b, vcpds) == DerivedComponents(a, vcpds) + DerivedComponents(b, vcpds)
  {
    if b == [] {
      Seqs.AppendNil(a);
    } else {
      DerivedComponentsAppend(a, b[..|b| - 1], vcpds);
      Seqs.AppendDropLast(a, b);
    }
  }

  /** No VDU of the list gets an interface. */
  predicate NoVduInterfaces(vdus: seq<Vdu>, vcpds: seq<VirtualCpd>) {
    forall k :: 0 <= k < |vdus| ==> VduInterfaces(vdus[k], vcpds) == []
  }

  /**
    A VDU whose connection points carry at least one port gets an interface and
    so yields a component: the list is not empty.
   */
  lemma DerivedComponentsNonEmpty(vdus: seq<Vdu>, vcpds: seq<VirtualCpd>, k: nat)
    requires k < |vdus| && VcpdPortCount(VcpdsOf(vcpds, vdus[k].vduId)) > 0
    ensures DerivedComponents(vdus, vcpds) != []
  {
    assert VduInterfaces(vdus[k], vcpds) != [];
    assert vdus == vdus[..k + 1] + vdus[k + 1..];
    DerivedComponentsAppend(vdus[..k + 1], vdus[k + 1..], vcpds);
    DerivedComponentsStep(vdus, k, vcpds);
  }

  /** When no VDU gets an interface, no component is derived. */
  lemma {:induction false} DerivedComponentsNone(vdus: seq<Vdu>, vcpds: seq<VirtualCpd>)
    requires NoVduInterfaces(vdus, vcpds)
    ensures DerivedComponents(vdus, vcpds) == []
  {
    if vdus != [] {
      var front := vdus[..|vdus| - 1];
      assert forall k :: 0 <= k < |front| ==> front[k] == vdus[k];
      DerivedComponentsNone(front, vcpds);
      assert VduInterfaces(vdus[|vdus| - 1], vcpds) == [];
    }
  }

  /** No component is derived exactly when no VDU gets an interface. */
  lemma DerivedComponentsEmpty(vdus: seq<Vdu>, vcpds: seq<VirtualCpd>)
    ensures DerivedComponents(vdus, vcpds) == [] <==> NoVduInterfaces(vdus, vcpds)
  {
    if NoVduInterfaces(vdus, vcpds) {
      DerivedComponentsNone(vdus, vcpds);
    } else {
      var k :| 0 <= k < |vdus| && VduInterfaces(vdus[k], vcpds) != [];
      DerivedComponentsNonEmpty(vdus, vcpds, k);
    }
  }

  /** The component list of the manifest: the derived one, or a single placeholder without interfaces. */
  function ComponentSpec(d: AppDescriptor): (r: seq<ComponentSpecItem>)
    ensures r != []
    ensures |r| <= |d.vdu.GetOr([])| || |r| == 1
  {
    var derived := DerivedComponents(d.vdu.GetOr([]), d.virtualCpd.GetOr([]));
    if derived == [] then [ComponentSpecItem(SanitizeComponentName(d.appProductName), [])] else derived
  }

  /**
    The placeholder is used exactly when no VDU gets an interface; it is then
    the only component, named after the product, with no interfaces.
   */
  lemma ComponentSpecFallback(d: AppDescriptor)
    ensures NoVduInterfaces(d.vdu.GetOr([]), d.virtualCpd.GetOr([]))
            <==> ComponentSpec(d) == [ComponentSpecItem(SanitizeComponentName(d.appProductName), [])]
  {
    var derived := DerivedComponents(d.vdu.GetOr([]), d.virtualCpd.GetOr([]));
    DerivedComponentsEmpty(d.vdu.GetOr([]), d.virtualCpd.GetOr([]));
    if derived != [] {
      DerivedComponentsWellFormed(d.vdu.GetOr([]), d.virtualCpd.GetOr([]));
      Seqs.AllAt(derived, DerivedComponent, 0);
    }
  }

  /** Every component of the manifest has a valid name and only well-formed interfaces. */
  lemma ComponentSpecWellFormed(d: AppDescriptor)
    ensures Seqs.All(ComponentSpec(d), ValidComponent)
  {
    var derived := DerivedComponents(d.vdu.GetOr([]), d.virtualCpd.GetOr([]));
    if derived != [] {
      DerivedComponentsWellFormed(d.vdu.GetOr([]), d.virtualCpd.GetOr([]));
      DerivedAreValid(derived);
    } else {
      Seqs.AllSnoc([], ComponentSpecItem(SanitizeComponentName(d.appProductName), []), ValidComponent);
    }
  }

  lemma {:induction false} DerivedAreValid(cs: seq<ComponentSpecItem>)
    requires Seqs.All(cs, DerivedComponent)
    ensures Seqs.All(cs, ValidComponent)
  {
    if cs != [] {
      DerivedAreValid(cs[..|cs| - 1]);
    }
  }


  // ---------------------------------------------------------------------------
  // The manifest (eaas2camara_builder.py:92-258)
  // ---------------------------------------------------------------------------

  /** The AppManifest a descriptor translates to. */
  function AppManifestOf(d: AppDescriptor): (m: AppManifest)
    ensures m.appId.None? && m.packageType == Container
    ensures IsAppName(m.name) && IsAppProvider(m.appProvider)
    ensures m.version == d.appSoftwareVersion
    ensures m.appRepo.repoType == PublicRepo
    ensures m.requiredResources.infraKind == "kubernetes" && m.requiredResources.isStandalone
    ensures m.requiredResources.cpuPool.numCPU >= 1 && m.requiredResources.cpuPool.memory >= 1
    ensures m.componentSpec != [] && Seqs.All(m.componentSpec, ValidComponent)
  {
    ComponentSpecWellFormed(d);
    AppManifest(
      None,
      SanitizeAppName(d.appProductName),
      SanitizeAppProvider(d.appProvider),
      d.appSoftwareVersion,
      Container,
      AppRepo(PublicRepo, ImagePath(d.swImageDesc)),
      KubernetesResources("kubernetes", true, CpuPoolOf(d.vdu.GetOr([]))),
      ComponentSpec(d))
  }

  /**
    One nginx 1.25 image and one VDU whose only container sets a CPU limit of 2
    and a memory limit of 512 MB: the manifest pulls `nginx:1.25` and asks for
    2 CPUs and 512 MB on one node.
   */
  lemma SingleContainerScenario()
    ensures ImagePath(Some([SwImageDesc("img1", Some("nginx"), Some("1.25"), None)]))
            == "docker.io/library/nginx:1.25"
    ensures CpuPoolOf([Vdu("u1", Some("web"), Some([OsContainerDesc("c1", None, Some(2), None, Some(512))]))])
            == CpuPool(2, 512, Topology(1, 2, 512))
  {
    var c := OsContainerDesc("c1", None, Some(2), None, Some(512));
    var v := Vdu("u1", Some("web"), Some([c]));
    Seqs.SumSingle(c, ContainerCpu);
    Seqs.SumSingle(c, ContainerMemory);
    Seqs.SumSingle(v, VduCpu);
    Seqs.SumSingle(v, VduMemory);
  }

  /**
    The component loop of eaas2camara_builder.py:226-238: one component per
    VDU that gets at least one interface, in VDU order.
   */
  method BuildComponents(vdus: seq<Vdu>, vcpds: seq<VirtualCpd>, byVdu: map<string, seq<VirtualCpd>>)
    returns (componentSpec: seq<ComponentSpecItem>)
    requires forall id :: GroupFor(byVdu, id) == VcpdsOf(vcpds, id)
    ensures componentSpec == DerivedComponents(vdus, vcpds)
  {
    componentSpec := [];
    var i := 0;
    while i < |vdus|
      invariant 0 <= i <= |vdus|
      invariant componentSpec == DerivedComponents(vdus[..i], vcpds)
    {
      var vdu := vdus[i];
      var netifs := DeriveInterfaces(vdu.vduId, GroupFor(byVdu, vdu.vduId));
      if netifs != [] {
        var compName := SanitizeComponentName(if vdu.name.Some? && vdu.name.value != "" then vdu.name.value else vdu.vduId);
        componentSpec := componentSpec + [ComponentSpecItem(compName, netifs)];
      } else {
        Seqs.AppendNil(componentSpec);
      }
      DerivedComponentsStep(vdus, i, vcpds);
      i := i + 1;
    }
    Seqs.TakeAll(vdus);
  }

  /** `build_camara_app_manifest`, eaas2camara_builder.py:92-258. */
  method BuildCamaraAppManifest(d: AppDescriptor) returns (m: AppManifest)
    ensures m == AppManifestOf(d)
  {
    // 1) identity; the platform assigns the app id
    var name := SanitizeAppName(d.appProductName);
    var providerName := SanitizeAppProvider(d.appProvider);
    var version := d.appSoftwareVersion;

    // 2) image
    var imageName, imageVersion := "app", "latest";
    if d.swImageDesc.Some? && d.swImageDesc.value != [] {
      var img := d.swImageDesc.value[0];
      imageName := if img.swImage.Some? && img.swImage.value != "" then img.swImage.value else img.name.GetOr("app");
      imageVersion := img.version.GetOr("latest");
    }
    var appRepo := AppRepo(PublicRepo, RegistryPrefix + imageName + ":" + imageVersion);
    assert appRepo.imagePath == ImagePath(d.swImageDesc);

    // 3) resources
    var vdus := d.vdu.GetOr([]);
    var totalCpu, totalMem := AggregateResources(vdus);
    if totalCpu <= 0 {
      totalCpu := 1;
    }
    if totalMem <= 0 {
      totalMem := 1024;
    }
    var topology := Topology(1, if 1 >= totalCpu then 1 else totalCpu, totalMem);
    var resources := KubernetesResources("kubernetes", true, CpuPool(totalCpu, totalMem, topology));
    assert resources.cpuPool == CpuPoolOf(vdus);

    // 4) components
    var vcpds := d.virtualCpd.GetOr([]);
    var byVdu := GroupVcpdsByVdu(vcpds);
    var componentSpec := BuildComponents(vdus, vcpds, byVdu);
    if componentSpec == [] {
      componentSpec := [ComponentSpecItem(SanitizeComponentName(d.appProductName), [])];
    }
    assert componentSpec == ComponentSpec(d);

    // 5) manifest
    m := AppManifest(None, name, providerName, version, Container, appRepo, resources, componentSpec);
  }
}
