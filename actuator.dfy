/**
 * The machine actuator of the Baidu Cloud cluster-api provider: how it
 * finds the cloud instance behind a machine, creates one, deletes one,
 * waits for a new one to run and bootstraps it with a startup script.
 *
 * The compute service, the Kubernetes API and the remote shell are
 * oracles passed in as values: a `Snapshot` answers DescribeInstance at
 * one moment, the reply of CreateInstances and the outcome of the node and
 * instance deletes are parameters, and the SSH run is a function from the
 * request to its error.
 */
module Actuator {
  import opened GoStrings
  import opened StartupScript
  import opened StartupTemplates
  import StartupTokens

  datatype Option<T> = None | Some(value: T)

  datatype Result<T, E> = Ok(value: T) | Err(error: E)

  const ProviderName: string := "baidu"

  // Machine annotation keys.
  const TagInstanceRole: string := "instanceRole"
  const TagInstanceID: string := "instanceID"
  const TagInstanceStatus: string := "instanceStatus"
  const TagInstanceAdminPass: string := "instanceAdminPass"
  const TagKubeletVersion: string := "kubelet-version"

  // Cluster annotation keys.
  const TagClusterToken: string := "clusterToken"
  const TagMasterInstanceID: string := "masterInstanceID"
  const TagMasterIP: string := "masterIP"

  /** The keys a successful Create writes on the machine. */
  const MachineTags: set<string> :=
    {TagInstanceID, TagInstanceStatus, TagInstanceAdminPass, TagKubeletVersion, TagInstanceRole}

  /** The keys a successful Create of a master writes on the cluster. */
  const MasterClusterTags: set<string> := {TagMasterInstanceID, TagClusterToken}

  /**
   * An object's annotations: `None` is Go's nil map, which reads as empty
   * but must be made before it is written.
   */
  type Annotations = Option<map<string, string>>

  function Entries(a: Annotations): map<string, string>
  {
    if a.Some? then a.value else map[]
  }

  /** Reading a key the way Go reads a map: a missing key gives "". */
  function Get(a: Annotations, key: string): string
  {
    if key in Entries(a) then Entries(a)[key] else ""
  }

  /** An error of the compute service: a service error with its HTTP status, or any other failure. */
  datatype CloudError = ServiceError(statusCode: int, message: string) | TransportError(message: string)

  predicate IsNotFound(e: CloudError)
  {
    e.ServiceError? && e.statusCode == 404
  }

  /** An error of the Kubernetes API; `notFound` is what IsNotFound reports for it. */
  datatype KubeError = KubeError(notFound: bool, message: string)

  datatype Error =
    | CloudFailure(cause: CloudError)
    | ConfigError(message: string)
    | CreateVMError
    | KubeFailure(kubeCause: KubeError)
    | KubeClientError(message: string)
    | SshError(message: string)

  /** The fields of a cloud instance the actuator reads. */
  datatype Instance = Instance(
    instanceID: string, status: string, publicIP: string, internalIP: string, creationTime: string)

  /** What DescribeInstance answers, for every ID, at one moment. */
  type Snapshot = string -> Result<Instance, CloudError>

  /** The machine provider config fields Create reads. */
  datatype MachineConfig = MachineConfig(
    role: string, imageID: string, cpuCount: int, memoryCapacityInGB: int, adminPass: string)

  /** The request CreateInstances receives. */
  datatype CreateInstanceArgs = CreateInstanceArgs(
    name: string, imageID: string, paymentTiming: string, cpuCount: int, memoryCapacityInGB: int,
    adminPass: string, purchaseCount: int, instanceType: string, networkCapacityInMbps: int)

  class Machine {
    const name: string
    const kubeletVersion: string
    var annotations: Annotations

    constructor (name: string, kubeletVersion: string, annotations: Annotations)
      ensures this.name == name && this.kubeletVersion == kubeletVersion
      ensures this.annotations == annotations
    {
      this.name := name;
      this.kubeletVersion := kubeletVersion;
      this.annotations := annotations;
    }
  }

  class Cluster {
    const serviceCidrs: seq<string>
    const podCidrs: seq<string>
    var annotations: Annotations

    constructor (serviceCidrs: seq<string>, podCidrs: seq<string>, annotations: Annotations)
      ensures this.serviceCidrs == serviceCidrs && this.podCidrs == podCidrs
      ensures this.annotations == annotations
    {
      this.serviceCidrs := serviceCidrs;
      this.podCidrs := podCidrs;
      this.annotations := annotations;
    }
  }

  /** The stand-in for an instance the cloud no longer knows: only its ID is set. */
  function Placeholder(id: string): (r: Instance)
    ensures r.instanceID == id && r.creationTime == "" && r.status == ""
  {
    Instance(id, "", "", "", "")
  }

  /**
   * The instance behind a machine, found through its `instanceID`
   * annotation: none when no ID is stored, the stand-in when the cloud
   * answers 404, and the cloud's error otherwise.
   */
  function InstanceIfExists(a: Annotations, describe: Snapshot): (r: Result<Option<Instance>, Error>)
    ensures r == Ok(None) <==> |Get(a, TagInstanceID)| == 0
    ensures r.Err? <==>
      |Get(a, TagInstanceID)| > 0 && describe(Get(a, TagInstanceID)).Err?
      && !IsNotFound(describe(Get(a, TagInstanceID)).error)
    ensures r.Err? ==> r.error == CloudFailure(describe(Get(a, TagInstanceID)).error)
    ensures |Get(a, TagInstanceID)| > 0 && describe(Get(a, TagInstanceID)).Ok? ==>
      r == Ok(Some(describe(Get(a, TagInstanceID)).value))
    ensures (|Get(a, TagInstanceID)| > 0 && describe(Get(a, TagInstanceID)).Err?
             && IsNotFound(describe(Get(a, TagInstanceID)).error)) ==>
      r.Ok? && r.value.Some? && r.value.value.instanceID == Get(a, TagInstanceID)
      && r.value.value.creationTime == ""
  {
    var id := Get(a, TagInstanceID);
    if |id| == 0 then Ok(None)
    else match describe(id)
      case Ok(instance) => Ok(Some(instance))
      case Err(e) => if IsNotFound(e) then Ok(Some(Placeholder(id))) else Err(CloudFailure(e))
  }

  /** Without a stored ID the answer does not depend on the cloud: it is never asked. */
  lemma NoIdNoCloudCall(a: Annotations, d1: Snapshot, d2: Snapshot)
    requires |Get(a, TagInstanceID)| == 0
    ensures InstanceIfExists(a, d1) == InstanceIfExists(a, d2) == Ok(None)
  {
  }

  /** With a stored ID the cloud is asked about that ID and nothing else. */
  lemma OnlyStoredIdAsked(a: Annotations, d1: Snapshot, d2: Snapshot)
    requires d1(Get(a, TagInstanceID)) == d2(Get(a, TagInstanceID))
    ensures InstanceIfExists(a, d1) == InstanceIfExists(a, d2)
  {
  }

  /** Whether the machine's instance exists: also true for the 404 stand-in. */
  function Exists(a: Annotations, describe: Snapshot): (r: Result<bool, Error>)
    ensures r.Ok? <==> InstanceIfExists(a, describe).Ok?
    ensures r == Ok(true) <==> InstanceIfExists(a, describe).Ok? && InstanceIfExists(a, describe).value.Some?
    ensures r.Err? ==> r.error == InstanceIfExists(a, describe).error
  {
    match InstanceIfExists(a, describe)
    case Err(e) => Err(e)
    case Ok(instance) => Ok(instance.Some?)
  }

  /** The result of Delete and the IDs the cloud delete was called with. */
  datatype DeleteOutcome = DeleteOutcome(error: Option<Error>, deleted: seq<string>)

  /**
   * Delete: remove the Kubernetes node (NotFound is tolerated), then
   * delete the instance, unless there is none or it has no creation time.
   */
  function Delete(
    kubeClient: Option<Error>, nodeDelete: Option<KubeError>, a: Annotations, describe: Snapshot,
    deleteInstance: string -> Option<CloudError>): (r: DeleteOutcome)
    ensures |r.deleted| <= 1
    ensures kubeClient.Some? ==> r == DeleteOutcome(kubeClient, [])
    ensures kubeClient.None? && nodeDelete.Some? && !nodeDelete.value.notFound ==>
      r == DeleteOutcome(Some(KubeFailure(nodeDelete.value)), [])
    ensures kubeClient.None? && (nodeDelete.None? || nodeDelete.value.notFound) ==>
      match InstanceIfExists(a, describe)
      case Err(e) => r == DeleteOutcome(Some(e), [])
      case Ok(None) => r == DeleteOutcome(None, [])
      case Ok(Some(instance)) =>
        if |instance.creationTime| == 0 then r == DeleteOutcome(None, [])
        else (r.deleted == [instance.instanceID]
              && (r.error.None? <==> deleteInstance(instance.instanceID).None?)
              && (r.error.Some? ==> r.error.value == CloudFailure(deleteInstance(instance.instanceID).value)))
  {
    if kubeClient.Some? then DeleteOutcome(kubeClient, [])
    else if nodeDelete.Some? && !nodeDelete.value.notFound then
      DeleteOutcome(Some(KubeFailure(nodeDelete.value)), [])
    else match InstanceIfExists(a, describe)
      case Err(e) => DeleteOutcome(Some(e), [])
      case Ok(instance) =>
        if instance.None? || |instance.value.creationTime| == 0 then DeleteOutcome(None, [])
        else
          var id := instance.value.instanceID;
          match deleteInstance(id)
          case None => DeleteOutcome(None, [id])
          case Some(e) => DeleteOutcome(Some(CloudFailure(e)), [id])
  }

  /** A node delete that fails for another reason than NotFound stops Delete before the cloud is asked. */
  lemma NodeDeleteErrorStopsDelete(
    nodeDelete: KubeError, a: Annotations, d1: Snapshot, d2: Snapshot,
    x1: string -> Option<CloudError>, x2: string -> Option<CloudError>)
    requires !nodeDelete.notFound
    ensures Delete(None, Some(nodeDelete), a, d1, x1) == Delete(None, Some(nodeDelete), a, d2, x2)
    ensures Delete(None, Some(nodeDelete), a, d1, x1).deleted == []
  {
  }

  /** An instance the cloud answers 404 for still exists, yet deleting it is a no-op. */
  lemma VanishedInstance(
    a: Annotations, describe: Snapshot, nodeDelete: Option<KubeError>, deleteInstance: string -> Option<CloudError>)
    requires |Get(a, TagInstanceID)| > 0
    requires describe(Get(a, TagInstanceID)).Err? && IsNotFound(describe(Get(a, TagInstanceID)).error)
    requires nodeDelete.None? || nodeDelete.value.notFound
    ensures Exists(a, describe) == Ok(true)
    ensures Delete(None, nodeDelete, a, describe, deleteInstance) == DeleteOutcome(None, [])
  {
  }

  /** kubeadm's bootstrap-token format: six and sixteen lower-case letters or digits around a dot. */
  predicate IsBootstrapToken(t: string)
  {
    |t| == 23 && t[6] == '.'
    && forall i | 0 <= i < 23 && i != 6 :: 'a' <= t[i] <= 'z' || '0' <= t[i] <= '9'
  }

  /** getKubeadmToken: one fixed token, never an error. */
  function GetKubeadmToken(): (r: Result<string, Error>)
    ensures r.Ok? && IsBootstrapToken(r.value)
  {
    Ok("abcdef.0123456789abcdef")
  }

  /** A bootstrap token carries no underscore and therefore no placeholder token. */
  lemma BootstrapTokenIsTokenFree(t: string)
    requires IsBootstrapToken(t)
    ensures TokenFree(t)
  {
    assert NoDoubleUnderscore(t) by {
      forall i | 0 <= i < |t| - 1 ensures t[i] != '_' {
      }
    }
    forall q: Placeholder ensures Occurrences(t, Token(q)) == 0 {
      TokenShape(q);
      DoubleFreeNoOccurrence(t, Token(q));
    }
  }

  /** The arguments of the CreateInstances call for a machine. */
  function CreateRequest(name: string, cfg: MachineConfig): CreateInstanceArgs
  {
    CreateInstanceArgs(name, cfg.imageID, "Postpaid", cfg.cpuCount, cfg.memoryCapacityInGB,
                       cfg.adminPass, 1, "N3", 1)
  }

  /** The role a machine is annotated with: "master" for a master config, "node" for anything else. */
  function MachineRole(role: string): (r: string)
    ensures r == "master" <==> role == "master"
    ensures r == "master" || r == "node"
  {
    if role == "master" then "master" else "node"
  }

  /** The machine's annotations after a successful Create. */
  function CreatedMachineAnnotations(
    a: Annotations, id: string, adminPass: string, version: string, role: string): (m: map<string, string>)
    ensures m.Keys == Entries(a).Keys + MachineTags
    ensures m[TagInstanceID] == id && m[TagInstanceStatus] == "Created"
    ensures m[TagInstanceAdminPass] == adminPass && m[TagKubeletVersion] == version
    ensures m[TagInstanceRole] == MachineRole(role)
    ensures forall k | k in Entries(a) && k !in MachineTags :: m[k] == Entries(a)[k]
  {
    Entries(a)[TagInstanceID := id][TagInstanceStatus := "Created"][TagInstanceAdminPass := adminPass]
      [TagKubeletVersion := version][TagInstanceRole := MachineRole(role)]
  }

  /** The cluster's annotations after a successful Create: only a master records itself and the token. */
  function CreatedClusterAnnotations(a: Annotations, id: string, token: string, role: string): (m: map<string, string>)
    ensures role == "master" ==>
      m.Keys == Entries(a).Keys + MasterClusterTags
      && m[TagMasterInstanceID] == id && m[TagClusterToken] == token
      && forall k | k in Entries(a) && k !in MasterClusterTags :: m[k] == Entries(a)[k]
    ensures role != "master" ==> m == Entries(a)
  {
    if role == "master" then Entries(a)[TagMasterInstanceID := id][TagClusterToken := token]
    else Entries(a)
  }

  /** Writes a key of an annotation map that has been made. */
  function Put(a: Annotations, key: string, value: string): Annotations
    requires a.Some?
  {
    Some(a.value[key := value])
  }

  /**
   * Create: resolve the instance (one already there is only logged),
   * decode the config, request exactly one instance, then annotate the
   * machine and, for a master, the cluster. `request` is the
   * CreateInstances call made, if any.
   */
  method Create(
    cluster: Cluster, machine: Machine, describe: Snapshot, config: Result<MachineConfig, string>,
    reply: Result<seq<string>, CloudError>)
    returns (err: Option<Error>, request: Option<CreateInstanceArgs>)
    modifies cluster, machine
    ensures InstanceIfExists(old(machine.annotations), describe).Err? ==>
      err == Some(InstanceIfExists(old(machine.annotations), describe).error) && request == None
    ensures InstanceIfExists(old(machine.annotations), describe).Ok? && config.Err? ==>
      err == Some(ConfigError(config.error)) && request == None
    ensures InstanceIfExists(old(machine.annotations), describe).Ok? && config.Ok? ==>
      request == Some(CreateRequest(machine.name, config.value))
      && (reply.Err? ==> err == Some(CloudFailure(reply.error)))
      && (reply.Ok? && |reply.value| != 1 ==> err == Some(CreateVMError))
    ensures err.None? <==>
      InstanceIfExists(old(machine.annotations), describe).Ok? && config.Ok? && reply.Ok? && |reply.value| == 1
    ensures err.Some? ==>
      machine.annotations == old(machine.annotations) && cluster.annotations == old(cluster.annotations)
    ensures err.None? ==>
      config.Ok? && reply.Ok? && |reply.value| == 1
      && machine.annotations == Some(CreatedMachineAnnotations(
           old(machine.annotations), reply.value[0], config.value.adminPass, machine.kubeletVersion, config.value.role))
      && cluster.annotations == Some(CreatedClusterAnnotations(
           old(cluster.annotations), reply.value[0], GetKubeadmToken().value, config.value.role))
  {
    var resolved := InstanceIfExists(machine.annotations, describe);
    if resolved.Err? {
      return Some(resolved.error), None;
    }
    if config.Err? {
      return Some(ConfigError(config.error)), None;
    }
    var cfg := config.value;
    request := Some(CreateRequest(machine.name, cfg));
    if reply.Err? {
      return Some(CloudFailure(reply.error)), request;
    }
    var ids := reply.value;
    if |ids| != 1 {
      return Some(CreateVMError), request;
    }
    if machine.annotations.None? {
      machine.annotations := Some(map[]);
    }
    if cluster.annotations.None? {
      cluster.annotations := Some(map[]);
    }
    machine.annotations := Put(machine.annotations, TagInstanceID, ids[0]);
    machine.annotations := Put(machine.annotations, TagInstanceStatus, "Created");
    machine.annotations := Put(machine.annotations, TagInstanceAdminPass, cfg.adminPass);
    machine.annotations := Put(machine.annotations, TagKubeletVersion, machine.kubeletVersion);
    var token := GetKubeadmToken().value;
    if cfg.role == "master" {
      cluster.annotations := Put(cluster.annotations, TagMasterInstanceID, ids[0]);
      cluster.annotations := Put(cluster.annotations, TagClusterToken, token);
      machine.annotations := Put(machine.annotations, TagInstanceRole, "master");
    } else {
      machine.annotations := Put(machine.annotations, TagInstanceRole, "node");
    }
    err := None;
  }

  /**
   * Create is what makes a machine exist: before it, Exists answers false
   * exactly when no instance ID is stored; after a successful Create that
   * stored a non-empty ID, Exists never answers false again.
   */
  lemma ExistsAfterCreate(
    a: Annotations, id: string, adminPass: string, version: string, role: string, describe: Snapshot)
    requires |id| > 0
    ensures Exists(a, describe) == Ok(false) <==> |Get(a, TagInstanceID)| == 0
    ensures Exists(Some(CreatedMachineAnnotations(a, id, adminPass, version, role)), describe) != Ok(false)
    ensures Exists(Some(CreatedMachineAnnotations(a, id, adminPass, version, role)), describe) == Ok(true) <==>
      describe(id).Ok? || IsNotFound(describe(id).error)
  {
    assert Get(Some(CreatedMachineAnnotations(a, id, adminPass, version, role)), TagInstanceID) == id;
  }

  /** The edge case: a reply holding one empty ID is accepted, and the machine still does not exist. */
  lemma EmptyIdCreateDoesNotExist(
    a: Annotations, adminPass: string, version: string, role: string, describe: Snapshot)
    ensures Exists(Some(CreatedMachineAnnotations(a, "", adminPass, version, role)), describe) == Ok(false)
  {
    assert Get(Some(CreatedMachineAnnotations(a, "", adminPass, version, role)), TagInstanceID) == "";
  }

  /** After a successful Create of a master, the cluster carries a token in kubeadm's format. */
  lemma CreateStoresBootstrapToken(a: Annotations, id: string)
    ensures IsBootstrapToken(Get(Some(CreatedClusterAnnotations(a, id, GetKubeadmToken().value, "master")), TagClusterToken))
  {
  }

  /** postCreate polls the instance at most this many times. */
  const PollLimit: nat := 10

  /** A poll that found the instance up: no error and status "Running". */
  predicate Running(r: Result<Option<Instance>, Error>)
  {
    r.Ok? && r.value.Some? && r.value.value.status == "Running"
  }

  /**
   * The number of polls postCreate makes, counting from poll `i`, when a
   * failed or empty poll is logged and retried: it stops after the first
   * poll that finds the instance running, or after the last allowed one.
   * `cloudAt(j)` is the cloud as poll `j` sees it.
   */
  function PollCount(a: Annotations, cloudAt: nat -> Snapshot, i: nat): (n: nat)
    requires i < PollLimit
    ensures i < n <= PollLimit
    ensures Running(InstanceIfExists(a, cloudAt(n - 1))) || n == PollLimit
    ensures forall j | i <= j < n - 1 :: !Running(InstanceIfExists(a, cloudAt(j)))
    decreases PollLimit - i
  {
    if Running(InstanceIfExists(a, cloudAt(i))) || i + 1 == PollLimit then i + 1
    else PollCount(a, cloudAt, i + 1)
  }

  /** The result of the last poll, the one postCreate goes on with. */
  function LastPoll(a: Annotations, cloudAt: nat -> Snapshot): Result<Option<Instance>, Error>
  {
    InstanceIfExists(a, cloudAt(PollCount(a, cloudAt, 0) - 1))
  }

  /** The poll loop: polls until the instance runs or the limit is reached. */
  method WaitForInstance(machine: Machine, cloudAt: nat -> Snapshot)
    returns (polls: nat, last: Result<Option<Instance>, Error>)
    ensures polls == PollCount(machine.annotations, cloudAt, 0)
    ensures last == LastPoll(machine.annotations, cloudAt)
  {
    polls, last := 0, Ok(None);
    var i := 0;
    while i < PollLimit
      invariant 0 <= i <= PollLimit
      invariant i < PollLimit ==> PollCount(machine.annotations, cloudAt, 0) == PollCount(machine.annotations, cloudAt, i)
      invariant i == PollLimit ==> polls == PollCount(machine.annotations, cloudAt, 0) == PollLimit
      invariant 0 < polls ==> last == InstanceIfExists(machine.annotations, cloudAt(polls - 1))
    {
      last := InstanceIfExists(machine.annotations, cloudAt(i));
      polls := i + 1;
      if Running(last) {
        break;
      }
      i := i + 1;
    }
  }

  /** How the poll loop as written ends: with the number of polls made, or in a nil dereference. */
  datatype PollOutcome = Polled(polls: nat) | Panicked(line: nat)

  /**
   * The poll loop as written: the running check reads the status of a
   * nil instance when no ID is stored, and the log line after it does the
   * same whenever the poll failed.
   */
  function PollAsWritten(a: Annotations, cloudAt: nat -> Snapshot, i: nat): (r: PollOutcome)
    requires i < PollLimit
    ensures r.Polled? ==> i < r.polls <= PollLimit
    decreases PollLimit - i
  {
    var result := InstanceIfExists(a, cloudAt(i));
    if result.Ok? && result.value.None? then Panicked(196)
    else if Running(result) then Polled(i + 1)
    else if result.Err? then Panicked(199)
    else if i + 1 == PollLimit then Polled(i + 1)
    else PollAsWritten(a, cloudAt, i + 1)
  }

  /** As written, the loop never ends on a failed poll: the error return after it cannot be reached. */
  lemma {:induction false} PollAsWrittenNeverFails(a: Annotations, cloudAt: nat -> Snapshot, i: nat)
    requires i < PollLimit
    ensures PollAsWritten(a, cloudAt, i).Polled? ==>
      InstanceIfExists(a, cloudAt(PollAsWritten(a, cloudAt, i).polls - 1)).Ok?
    decreases PollLimit - i
  {
    var result := InstanceIfExists(a, cloudAt(i));
    if !(result.Ok? && result.value.None?) && !Running(result) && result.Ok? && i + 1 < PollLimit {
      PollAsWrittenNeverFails(a, cloudAt, i + 1);
    }
  }

  /** The input that shows it: a first poll the cloud answers with a non-404 error panics. */
  lemma PollAsWrittenPanicsOnError(a: Annotations, cloudAt: nat -> Snapshot)
    requires |Get(a, TagInstanceID)| > 0
    requires cloudAt(0)(Get(a, TagInstanceID)).Err? && !IsNotFound(cloudAt(0)(Get(a, TagInstanceID)).error)
    ensures PollAsWritten(a, cloudAt, 0) == Panicked(199)
  {
  }

  /** While every poll finds an instance, the loop as written and the corrected one agree. */
  lemma {:induction false} PollAgreesOnInstances(a: Annotations, cloudAt: nat -> Snapshot, i: nat)
    requires i < PollLimit
    requires forall j | i <= j < PollLimit :: InstanceIfExists(a, cloudAt(j)).Ok? && InstanceIfExists(a, cloudAt(j)).value.Some?
    ensures PollAsWritten(a, cloudAt, i) == Polled(PollCount(a, cloudAt, i))
    decreases PollLimit - i
  {
    var result := InstanceIfExists(a, cloudAt(i));
    assert result.Ok? && result.value.Some?;
    if i + 1 < PollLimit && !Running(result) {
      PollAgreesOnInstances(a, cloudAt, i + 1);
    }
  }

  /** The template postCreate starts from for a machine role. */
  function StartupTemplate(role: string): string
  {
    if role == "master" then MasterStartup else NodeStartup
  }

  /** The values postCreate substitutes. */
  function BootstrapValues(
    version: string, serviceCidrs: seq<string>, podCidrs: seq<string>, clusterAnnotations: Annotations,
    instance: Instance, master: Instance): Values
    requires |serviceCidrs| > 0 && |podCidrs| > 0
  {
    Values(version, serviceCidrs[0], podCidrs[0], instance.publicIP, instance.instanceID,
           Get(clusterAnnotations, TagClusterToken), master.internalIP)
  }

  /** The script postCreate runs on a machine of a role. */
  function BootstrapScript(role: string, vs: Values): string
  {
    Render(StartupTemplate(role), vs)
  }

  /** With token-free values, the script of either role holds no placeholder token any more. */
  lemma BootstrapScriptTokenFree(role: string, vs: Values)
    requires ValuesTokenFree(vs)
    ensures TokenFree(BootstrapScript(role, vs))
  {
    if role == "master" {
      MasterScriptTokenFree(vs);
    } else {
      NodeScriptTokenFree(role, vs);
    }
  }

  lemma MasterScriptTokenFree(vs: Values)
    requires ValuesTokenFree(vs)
    ensures TokenFree(BootstrapScript("master", vs))
  {
    StartupTokens.RenderMasterStartup(vs);
  }

  lemma NodeScriptTokenFree(role: string, vs: Values)
    requires role != "master" && ValuesTokenFree(vs)
    ensures TokenFree(BootstrapScript(role, vs))
  {
    StartupTokens.RenderNodeStartup(vs);
  }

  /** The seven replacements, one statement each, in the order postCreate makes them. */
  method RenderStartupScript(template: string, vs: Values) returns (script: string)
    ensures script == Render(template, vs)
  {
    script := template;
    script := ReplaceOnce(script, Token(Version), vs.version);
    script := ReplaceOnce(script, Token(ServiceCidr), vs.serviceCidr);
    script := ReplaceOnce(script, Token(PodCidr), vs.podCidr);
    script := ReplaceOnce(script, Token(PublicIp), vs.publicIp);
    script := ReplaceOnce(script, Token(MachineId), vs.machineId);
    script := ReplaceOnce(script, Token(ClusterToken), vs.clusterToken);
    script := ReplaceOnce(script, Token(MasterIp), vs.masterIp);
  }

  /** The template for the role, put through the seven replacements. */
  method BootstrapScriptFor(role: string, vs: Values) returns (script: string)
    ensures script == BootstrapScript(role, vs)
  {
    var template := StartupTemplate(role);
    script := RenderStartupScript(template, vs);
  }

  /** A bash script run as a user on a host over SSH with a password. */
  datatype SshRequest = SshRequest(user: string, host: string, password: string, script: string)

  /** How postCreate ends: a nil dereference, an error before the SSH run, or the SSH run and its error. */
  datatype PostCreateOutcome =
    | Panic(line: nat)
    | Failed(error: Error)
    | Deployed(request: SshRequest, sshError: Option<Error>)

  /**
   * The SSH run postCreate makes once the poll found `instance` and the
   * master was described as `master`: the template of the machine's role
   * annotation, filled with the kubelet version, the first service and pod
   * ranges, the instance's public address and ID, the cluster's token and
   * the master's internal address, run as root on the instance's public
   * address with the admin password stored at Create.
   */
  function BootstrapRequest(cluster: Cluster, machine: Machine, instance: Instance, master: Instance): (r: SshRequest)
    reads cluster, machine
    requires |cluster.serviceCidrs| > 0 && |cluster.podCidrs| > 0
    ensures r == SshRequest("root", instance.publicIP, Get(machine.annotations, TagInstanceAdminPass), r.script)
  {
    var vs := BootstrapValues(machine.kubeletVersion, cluster.serviceCidrs, cluster.podCidrs,
                              cluster.annotations, instance, master);
    SshRequest("root", instance.publicIP, Get(machine.annotations, TagInstanceAdminPass),
               BootstrapScript(Get(machine.annotations, TagInstanceRole), vs))
  }

  /**
   * What postCreate does once the poll found `instance`: describe the
   * master named by the cluster's `masterInstanceID` annotation directly
   * (a 404 is an error here, whatever the role), then make the SSH run.
   */
  function Bootstrap(
    cluster: Cluster, machine: Machine, instance: Instance, cloud: Snapshot, ssh: SshRequest -> Option<Error>): (r: PostCreateOutcome)
    reads cluster, machine
    requires |cluster.serviceCidrs| > 0 && |cluster.podCidrs| > 0
  {
    var master := cloud(Get(cluster.annotations, TagMasterInstanceID));
    if master.Err? then Failed(CloudFailure(master.error))
    else
      var request := BootstrapRequest(cluster, machine, instance, master.value);
      Deployed(request, ssh(request))
  }

  /** The script of a role holds no token when the token has kubeadm's format and the other values carry none. */
  lemma FilledValuesScript(role: string, vs: Values)
    requires IsBootstrapToken(vs.clusterToken)
    requires TokenFree(vs.version) && TokenFree(vs.serviceCidr) && TokenFree(vs.podCidr)
    requires TokenFree(vs.publicIp) && TokenFree(vs.machineId) && TokenFree(vs.masterIp)
    ensures TokenFree(BootstrapScript(role, vs))
  {
    BootstrapTokenIsTokenFree(vs.clusterToken);
    assert ValuesTokenFree(vs) by {
      forall p: Placeholder ensures TokenFree(Value(vs, p)) {
      }
    }
    BootstrapScriptTokenFree(role, vs);
  }

  /**
   * The script postCreate runs holds no placeholder token when the cluster
   * token is one Create stores (kubeadm's format) and the version, the
   * first ranges, the instance's address and ID and the master's internal
   * address carry none.
   */
  lemma BootstrapLeavesNoToken(cluster: Cluster, machine: Machine, instance: Instance, master: Instance)
    requires |cluster.serviceCidrs| > 0 && |cluster.podCidrs| > 0
    requires IsBootstrapToken(Get(cluster.annotations, TagClusterToken))
    requires TokenFree(machine.kubeletVersion) && TokenFree(cluster.serviceCidrs[0]) && TokenFree(cluster.podCidrs[0])
    requires TokenFree(instance.publicIP) && TokenFree(instance.instanceID) && TokenFree(master.internalIP)
    ensures TokenFree(BootstrapRequest(cluster, machine, instance, master).script)
  {
    FilledValuesScript(Get(machine.annotations, TagInstanceRole),
      BootstrapValues(machine.kubeletVersion, cluster.serviceCidrs, cluster.podCidrs, cluster.annotations, instance, master));
  }

  /** A failed master describe ends the bootstrap with its error; otherwise the SSH run is made. */
  lemma BootstrapOutcome(
    cluster: Cluster, machine: Machine, instance: Instance, cloud: Snapshot, ssh: SshRequest -> Option<Error>)
    requires |cluster.serviceCidrs| > 0 && |cluster.podCidrs| > 0
    ensures cloud(Get(cluster.annotations, TagMasterInstanceID)).Err? ==>
      Bootstrap(cluster, machine, instance, cloud, ssh) == Failed(CloudFailure(cloud(Get(cluster.annotations, TagMasterInstanceID)).error))
    ensures cloud(Get(cluster.annotations, TagMasterInstanceID)).Ok? ==>
      var r := BootstrapRequest(cluster, machine, instance, cloud(Get(cluster.annotations, TagMasterInstanceID)).value);
      Bootstrap(cluster, machine, instance, cloud, ssh) == Deployed(r, ssh(r))
  {
  }

  /**
   * With the token Create stores and token-free values, a bootstrap whose
   * master describe succeeds makes its SSH run with a script that carries
   * no placeholder token.
   */
  lemma BootstrapRunsTokenFreeScript(
    cluster: Cluster, machine: Machine, instance: Instance, cloud: Snapshot, ssh: SshRequest -> Option<Error>)
    requires |cluster.serviceCidrs| > 0 && |cluster.podCidrs| > 0
    requires IsBootstrapToken(Get(cluster.annotations, TagClusterToken))
    requires TokenFree(machine.kubeletVersion) && TokenFree(cluster.serviceCidrs[0]) && TokenFree(cluster.podCidrs[0])
    requires TokenFree(instance.publicIP) && TokenFree(instance.instanceID)
    requires cloud(Get(cluster.annotations, TagMasterInstanceID)).Ok?
    requires TokenFree(cloud(Get(cluster.annotations, TagMasterInstanceID)).value.internalIP)
    ensures Bootstrap(cluster, machine, instance, cloud, ssh).Deployed?
    ensures TokenFree(Bootstrap(cluster, machine, instance, cloud, ssh).request.script)
  {
    BootstrapOutcome(cluster, machine, instance, cloud, ssh);
    BootstrapLeavesNoToken(cluster, machine, instance, cloud(Get(cluster.annotations, TagMasterInstanceID)).value);
  }

  /** The steps of postCreate after the poll loop. */
  method Deploy(
    cluster: Cluster, machine: Machine, instance: Instance, cloud: Snapshot, ssh: SshRequest -> Option<Error>)
    returns (outcome: PostCreateOutcome)
    requires |cluster.serviceCidrs| > 0 && |cluster.podCidrs| > 0
    ensures outcome == Bootstrap(cluster, machine, instance, cloud, ssh)
  {
    var role := Get(machine.annotations, TagInstanceRole);
    var adminPass := Get(machine.annotations, TagInstanceAdminPass);
    var master := cloud(Get(cluster.annotations, TagMasterInstanceID));
    if master.Err? {
      return Failed(CloudFailure(master.error));
    }
    var vs := BootstrapValues(machine.kubeletVersion, cluster.serviceCidrs, cluster.podCidrs,
                              cluster.annotations, instance, master.value);
    var script := BootstrapScriptFor(role, vs);
    var request := SshRequest("root", instance.publicIP, adminPass, script);
    outcome := Deployed(request, ssh(request));
  }

  /**
   * postCreate with the poll loop corrected: wait for the instance, then
   * bootstrap it; an empty poll result at the end still dereferences nil.
   */
  method PostCreate(
    cluster: Cluster, machine: Machine, cloudAt: nat -> Snapshot, cloud: Snapshot,
    ssh: SshRequest -> Option<Error>)
    returns (outcome: PostCreateOutcome)
    requires |cluster.serviceCidrs| > 0 && |cluster.podCidrs| > 0
    ensures LastPoll(machine.annotations, cloudAt).Err? ==>
      outcome == Failed(LastPoll(machine.annotations, cloudAt).error)
    ensures LastPoll(machine.annotations, cloudAt) == Ok(None) ==> outcome == Panic(206)
    ensures LastPoll(machine.annotations, cloudAt).Ok? && LastPoll(machine.annotations, cloudAt).value.Some? ==>
      outcome == Bootstrap(cluster, machine, LastPoll(machine.annotations, cloudAt).value.value, cloud, ssh)
  {
    var polls, last := WaitForInstance(machine, cloudAt);
    if last.Err? {
      return Failed(last.error);
    }
    if last.value.None? {
      return Panic(206);
    }
    outcome := Deploy(cluster, machine, last.value.value, cloud, ssh);
  }
}
