/** The objects of the API store that the session controller reads or writes. */
module Objects {
  import opened Common
  import opened Egress
  import opened Resources

  type Uid = nat

  const SECOND: int := 1_000_000_000
  const MINUTE: int := 60 * SECOND
  const HOUR: int := 60 * MINUTE

  // ---------------------------------------------------------------------- sessions

  /** The phases the controller writes; NoPhase is the empty string of a new session. */
  datatype Phase = NoPhase | Pending | Running | Failed

  /** One constructor for each human-readable message. */
  datatype Message =
    | NoMessage
    | Provisioning
    | Recreating
    | DownloadingAssets
    | PullingImage
    | Crashing
    | StartingDesktop
    | StartingContainers
    | StartFailed
    | Scheduling
    | WaitingReady
    | LabReady
    | Restarting

  datatype Endpoint = Endpoint(service: string, kind: string, address: string)

  /** Times are nanoseconds since the epoch. */
  datatype Status = Status(
    phase: Phase, message: Message, namespace: string, endpoints: seq<Endpoint>,
    startTime: Option<int>, expiredTime: Option<int>)

  /** History variables: how often users wrote the restart annotation, and how often the
      controller recorded a restart as handled. No code reads them. */
  datatype History = History(bumps: nat, restarts: nat)

  /** `requested` and `handled` are the two restart annotations; "" when absent. */
  datatype Session = Session(
    uid: Uid, version: nat, userId: string, spaceRef: string,
    finalizer: bool, deleting: bool, requested: string, handled: string,
    status: Status, history: History)

  // --------------------------------------------------------------------- templates

  datatype Space = Space(
    selector: string, allowInternet: bool, internalOnly: bool, resources: Requirements,
    workspaceType: string, workspaceResources: Option<Requirements>, defaultTtl: string)

  datatype Port = Port(name: string, number: int)

  /** `exposure` is the exposure type, if any; `random` says some variable is a random draw. */
  datatype LabService = LabService(
    name: string, ports: seq<Port>, exposure: Option<string>, egress: seq<EgressRule>,
    resources: Requirements, random: bool)

  // ----------------------------------------------------------------------- owners

  /** A controller reference as the reconciler of one name sees it: its own kind and name,
      in the incarnation with the given identity, or another kind or name. */
  datatype OwnerRef = Own(uid: Uid) | Foreign(kind: string, name: string)

  /** The reference may be (re)set to an incarnation of the own name, whichever one is
      there: only the kind and the name are compared. */
  predicate Claimable(owner: Option<OwnerRef>) {
    owner.None? || owner.value.Own?
  }

  // ------------------------------------------------------------------------- pods

  datatype PodPhase = PodPending | PodRunning | PodSucceeded | PodFailed | PodUnknown

  datatype InitStatus = InitStatus(name: string, running: bool)

  /** `waiting` is the reason of a waiting container. */
  datatype ContainerStatus = ContainerStatus(waiting: Option<string>, ready: bool)

  datatype PodStatus = PodStatus(phase: PodPhase, init: seq<InitStatus>, containers: seq<ContainerStatus>)

  const FRESH_STATUS := PodStatus(PodPending, [], [])

  datatype Container = Container(name: string, requirements: Requirements)

  /** History: the session incarnation that created the pod, and whether the space that
      reconcile had read sets resources. */
  datatype Birth = Birth(uid: Uid, capped: bool)

  /** `draw` stands for the random values in the environment; `deletes` is a history
      variable counting the controller's effective delete calls. */
  datatype Pod = Pod(
    name: string, labels: Labels, containers: seq<Container>, owner: Option<OwnerRef>,
    terminating: bool, status: PodStatus, draw: nat, birth: Birth, deletes: nat)

  // ----------------------------------------------------------------- other objects

  datatype Kind = KService | KRoute | KPolicy | KQuota | KLimitRange | KSecret | KNetworkPolicy

  datatype Key = Key(kind: Kind, name: string)

  datatype Body =
    | ServiceBody(labels: Labels, selector: Labels, ports: seq<Port>)
    | RouteBody(hostnames: seq<string>, backend: string, port: int)
    | PolicyBody(policy: Policy)
    | QuotaBody(hard: ResourceList)
    | LimitRangeBody(defaults: Requirements)
    | SecretBody(config: string)
    | NetworkPolicyBody

  /** `owner` is the controller reference. */
  datatype Obj = Obj(owner: Option<OwnerRef>, body: Body)

  /** `birth` is a history variable: the session incarnation that created the namespace. */
  datatype Namespace = Namespace(terminating: bool, birth: Uid, pods: seq<Pod>, objects: map<Key, Obj>)

  // --------------------------------------------------------------------- the store

  /** `leaked` is a history variable: incarnations whose finalizer was removed after
      a namespace delete call that reported an error. */
  datatype Cluster = Cluster(
    sessions: map<string, Session>, namespaces: map<string, Namespace>,
    spaces: map<string, Space>, services: seq<LabService>,
    clock: int, nextUid: Uid, leaked: set<Uid>)

  /** The controller's environment variables and the functions left abstract. */
  datatype Config = Config(
    domainVariable: string, schemeVariable: string, pullConfig: string,
    parseDuration: string -> Option<int>,
    validSelector: string -> bool,
    selects: (string, LabService) -> bool)
  {
    function Domain(): string {
      if domainVariable == "" then "ctf.school" else domainVariable
    }

    function Scheme(): string {
      if schemeVariable == "" then "http" else schemeVariable
    }

    /** An unparsable selector is left nil, and a listing by a nil selector matches nothing. */
    function Selected(selector: string, services: seq<LabService>): (r: seq<LabService>)
      ensures forall s :: s in r <==> s in services && validSelector(selector) && selects(selector, s)
    {
      if services == [] then []
      else
        (if validSelector(selector) && selects(selector, services[0]) then [services[0]] else [])
        + Selected(selector, services[1..])
    }
  }

  /** Names of cluster-scoped objects are unique. */
  predicate DistinctNames(services: seq<LabService>) {
    forall i, j :: 0 <= i < j < |services| ==> services[i].name != services[j].name
  }

  lemma {:induction false} SelectedDistinct(cfg: Config, selector: string, services: seq<LabService>)
    requires DistinctNames(services)
    ensures DistinctNames(cfg.Selected(selector, services))
  {
    if services != [] {
      SelectedDistinct(cfg, selector, services[1..]);
      var rest := cfg.Selected(selector, services[1..]);
      forall s | s in rest ensures s.name != services[0].name {
        assert s in services[1..];
      }
    }
  }

  // ------------------------------------------------------------------ pods by name

  predicate HasPod(pods: seq<Pod>, name: string) {
    exists i :: 0 <= i < |pods| && pods[i].name == name
  }

  predicate DistinctPods(pods: seq<Pod>) {
    forall i, j :: 0 <= i < j < |pods| ==> pods[i].name != pods[j].name
  }
}
