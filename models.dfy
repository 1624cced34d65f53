/**
  The fields of the EaaS descriptor records that the translator reads
  (the pydantic models of app.models.eaas_models, which are not part of this
  model: only the fields used are kept, and an optional field is an Option).
 */
module EaasModels {
  import opened Wrappers

  datatype SwImageDesc = SwImageDesc(
    id: string,
    name: Option<string>,      // None: the record has no `name` attribute
    version: Option<string>,   // None: the record has no `version` attribute
    swImage: Option<string>)

  datatype OsContainerDesc = OsContainerDesc(
    osContainerDescId: string,
    requestedCpuResources: Option<int>,
    cpuResourceLimit: Option<int>,
    requestedMemoryResource: Option<int>,
    memoryResourceLimit: Option<int>)

  datatype Vdu = Vdu(vduId: string, name: Option<string>, osContainerDesc: Option<seq<OsContainerDesc>>)

  datatype PortData = PortData(name: Option<string>, protocol: Option<string>, port: int)

  datatype AdditionalServiceData = AdditionalServiceData(portData: Option<seq<PortData>>)

  datatype VirtualCpd = VirtualCpd(
    cpdId: string,
    vdu: Option<seq<string>>,
    additionalServiceData: Option<seq<AdditionalServiceData>>)

  datatype AppDescriptor = AppDescriptor(
    appProductName: string,
    appProvider: string,
    appSoftwareVersion: string,
    swImageDesc: Option<seq<SwImageDesc>>,
    vdu: Option<seq<Vdu>>,
    virtualCpd: Option<seq<VirtualCpd>>)
}

/**
  The part of the CAMARA Edge Application Management AppManifest that the
  translator fills in (app.models.camara_models is not part of this model;
  the fields it leaves None are dropped).
 */
module CamaraModels {
  import opened Wrappers

  /** The members of `camara.Protocol`. */
  datatype Protocol = TCP | UDP | ANY

  /** `camara.Protocol[name]`: lookup by member name. */
  function ProtocolByName(name: string): (p: Option<Protocol>)
    ensures p.Some? <==> name in {"TCP", "UDP", "ANY"}
  {
    if name == "TCP" then Some(TCP)
    else if name == "UDP" then Some(UDP)
    else if name == "ANY" then Some(ANY)
    else None
  }

  datatype VisibilityType = VisibilityExternal | VisibilityInternal

  datatype NetworkInterface = NetworkInterface(
    interfaceId: string,
    protocol: Protocol,
    port: int,
    visibilityType: VisibilityType)

  datatype ComponentSpecItem = ComponentSpecItem(componentName: string, networkInterfaces: seq<NetworkInterface>)

  datatype Topology = Topology(minNumberOfNodes: int, minNodeCpu: int, minNodeMemory: int)

  /** Aggregate CPU count and memory in megabytes. */
  datatype CpuPool = CpuPool(numCPU: int, memory: int, topology: Topology)

  /** `KubernetesResources`, standalone, with only a CPU pool. */
  datatype RequiredResources = KubernetesResources(infraKind: string, isStandalone: bool, cpuPool: CpuPool)

  datatype RepoType = PublicRepo | PrivateRepo

  /** `AppRepo` without credentials, user name, auth type or checksum (all None). */
  datatype AppRepo = AppRepo(repoType: RepoType, imagePath: string)

  datatype PackageType = Qcow2 | Ova | Container | Helm

  datatype AppManifest = AppManifest(
    appId: Option<string>,
    name: string,
    appProvider: string,
    version: string,
    packageType: PackageType,
    appRepo: AppRepo,
    requiredResources: RequiredResources,
    componentSpec: seq<ComponentSpecItem>)
}
