/**
 * The session reconciler as a protocol over the API store. Every API call is one atomic
 * step that may be refused, or applied with its reply lost; users, the kubelet, the
 * namespace controller, the garbage collector and the clock move in between.
 *
 * Assumptions: reads are linearizable, a session update is rejected unless it carries
 * the stored version, and reconciles of one session are serialized.
 */
module Protocol {
  import opened Common
  import opened Names
  import opened Resources
  import opened Objects
  import opened Actions
  import opened StatusSync

  // ------------------------------------------------------------------ API outcomes

  /** Done: applied and reported. LostReply: applied, but the caller sees an error.
      Refused: not applied. `draw` is the randomness used by the call. */
  datatype Outcome = Done(draw: nat) | LostReply(draw: nat) | Refused

  datatype Reply<+T> = Got(value: T) | Missing | Fault

  function DrawOf(o: Outcome): nat {
    match o
    case Done(d) => d
    case LostReply(d) => d
    case Refused => 0
  }

  // ----------------------------------------------------------------- server calls

  function GetSession(c: Cluster, k: string, o: Outcome): Reply<Session> {
    if !o.Done? then Fault else if k in c.sessions then Got(c.sessions[k]) else Missing
  }

  /** Optimistic concurrency: the update must carry the stored identity and version. */
  predicate Current(c: Cluster, k: string, s: Session) {
    k in c.sessions && c.sessions[k].uid == s.uid && c.sessions[k].version == s.version
  }

  /** An object that is being deleted goes away with its last finalizer. */
  function StoreSession(c: Cluster, k: string, s: Session): Cluster {
    c.(sessions := if s.deleting && !s.finalizer then c.sessions - {k} else c.sessions[k := s])
  }

  /** Updates finalizers and annotations; the status is left to the status call. */
  function UpdateSession(c: Cluster, k: string, s: Session, o: Outcome): (Cluster, Reply<Session>) {
    if o.Refused? || !Current(c, k, s) then (c, Fault)
    else
      var found := c.sessions[k];
      var next := found.(finalizer := s.finalizer, handled := s.handled, version := found.version + 1,
                         history := if s.handled == found.handled then found.history
                                    else found.history.(restarts := found.history.restarts + 1));
      (StoreSession(c, k, next), if o.Done? then Got(next) else Fault)
  }

  function UpdateStatus(c: Cluster, k: string, s: Session, o: Outcome): (Cluster, Reply<Session>) {
    if o.Refused? || !Current(c, k, s) then (c, Fault)
    else
      var next := c.sessions[k].(status := Stored(s.status), version := c.sessions[k].version + 1);
      (StoreSession(c, k, next), if o.Done? then Got(next) else Fault)
  }

  /** Deletes by name, whatever the incarnation. */
  function MarkSessionDeleted(c: Cluster, k: string): Cluster {
    if k !in c.sessions || c.sessions[k].deleting then c
    else StoreSession(c, k, c.sessions[k].(deleting := true, version := c.sessions[k].version + 1))
  }

  function DeleteSession(c: Cluster, k: string, o: Outcome): (Cluster, bool) {
    if o.Refused? || k !in c.sessions then (c, false) else (MarkSessionDeleted(c, k), o.Done?)
  }

  function NamespaceAt(c: Cluster, k: string): Option<Namespace> {
    if NamespaceOf(k) in c.namespaces then Some(c.namespaces[NamespaceOf(k)]) else None
  }

  function WithNamespace(c: Cluster, k: string, ns: Option<Namespace>): Cluster {
    c.(namespaces := if ns.Some? then c.namespaces[NamespaceOf(k) := ns.value] else c.namespaces - {NamespaceOf(k)})
  }

  function DeleteNamespace(c: Cluster, k: string, o: Outcome): (Cluster, bool) {
    (if o.Refused? || NamespaceAt(c, k).None? then c
     else WithNamespace(c, k, Some(NamespaceAt(c, k).value.(terminating := true))),
     o.Done?)
  }

  function Act(c: Cluster, k: string, a: Action, who: Birth, o: Outcome): (Cluster, bool) {
    if o.Refused? || !Admits(a, NamespaceAt(c, k)) then (c, false)
    else (WithNamespace(c, k, Apply(a, who, DrawOf(o), NamespaceAt(c, k))), o.Done?)
  }

  function PodsAt(c: Cluster, k: string): seq<Pod> {
    if NamespaceAt(c, k).Some? then NamespaceAt(c, k).value.pods else []
  }

  function ListPods(c: Cluster, k: string, o: Outcome): Reply<seq<Pod>> {
    if o.Done? then Got(PodsAt(c, k)) else Fault
  }

  function LiveNames(pods: seq<Pod>): seq<string> {
    if pods == [] then []
    else LiveNames(pods[..|pods| - 1]) + (if pods[|pods| - 1].terminating then [] else [pods[|pods| - 1].name])
  }

  function MarkPodDeleted(pods: seq<Pod>, name: string): seq<Pod> {
    seq(|pods|, i requires 0 <= i < |pods| =>
      if pods[i].name == name then pods[i].(terminating := true, deletes := pods[i].deletes + 1) else pods[i])
  }

  function WithPods(c: Cluster, k: string, pods: seq<Pod>): Cluster {
    if NamespaceAt(c, k).None? then c else WithNamespace(c, k, Some(NamespaceAt(c, k).value.(pods := pods)))
  }

  function DeletePod(c: Cluster, k: string, name: string, o: Outcome): (Cluster, bool) {
    (if o.Refused? then c else WithPods(c, k, MarkPodDeleted(PodsAt(c, k), name)), o.Done?)
  }

  function GetSpace(c: Cluster, name: string, o: Outcome): Reply<Space> {
    if !o.Done? then Fault else if name in c.spaces then Got(c.spaces[name]) else Missing
  }

  function ListServices(c: Cluster, cfg: Config, selector: string, o: Outcome): Reply<seq<LabService>> {
    if o.Done? then Got(cfg.Selected(selector, c.services)) else Fault
  }

  // --------------------------------------------------------------- the reconciler

  datatype Result = Stop | Error | After(delay: int)

  /** Where a reconcile stands: the constructor names the next call, and the fields are
      what the code has in its hands at that point. */
  datatype Local =
    | Idle(result: Result)
    | Begin
    | Cleanup(s: Session)
    | DropFinalizer(s: Session, deleteFailed: bool)
    | PutFinalizer(s: Session)
    | FetchSpace(s: Session)
    | Expire(s: Session)
    | Setup(s: Session, space: Space, todo: seq<Action>)
    | ListForRestart(s: Session)
    | DeletePods(s: Session, pods: seq<string>, failed: set<string>)
    | MarkHandled(s: Session, failed: set<string>)
    | RestartStatus(s: Session)
    | ListForWork(s: Session, space: Space)
    | Work(s: Session, space: Space, svcs: seq<LabService>, todo: seq<Action>)
    | ListForStatus(s: Session, space: Space, svcs: seq<LabService>, now: int)
    | WriteStatus(s: Session)

  function WhoOf(s: Session, space: Space): Birth {
    Birth(s.uid, Capped(space.resources))
  }

  predicate Expired(s: Session, now: int) {
    s.status.expiredTime.Some? && now > s.status.expiredTime.value
  }

  predicate RestartPending(s: Session) {
    s.requested != "" && s.requested != s.handled
  }

  function SettingUp(cfg: Config, s: Session, space: Space, todo: seq<Action>): Local {
    if todo != [] then Setup(s, space, todo)
    else if RestartPending(s) then ListForRestart(s)
    else ListForWork(s, space)
  }

  function Deleting(s: Session, pods: seq<string>, failed: set<string>): Local {
    if pods == [] then MarkHandled(s, failed) else DeletePods(s, pods, failed)
  }

  function Working(s: Session, space: Space, svcs: seq<LabService>, todo: seq<Action>, now: int): Local {
    if todo == [] then ListForStatus(s, space, svcs, now) else Work(s, space, svcs, todo)
  }

  function Received(s: Session): Local {
    if s.deleting then (if s.finalizer then Cleanup(s) else Idle(Stop))
    else if !s.finalizer then PutFinalizer(s)
    else FetchSpace(s)
  }

  function RestartingStatus(s: Status): Status {
    s.(phase := Pending, message := Restarting)
  }

  /** The next API call of the reconcile of session k. */
  function Step(cfg: Config, k: string, l: Local, c: Cluster, o: Outcome): (Local, Cluster) {
    match l
    case Idle(_) => (l, c)
    case Begin =>
      (match GetSession(c, k, o)
       case Got(s) => Received(s)
       case Missing => Idle(Stop)
       case Fault => Idle(Error), c)
    case Cleanup(s) =>
      var (c', ok) := DeleteNamespace(c, k, o);
      (DropFinalizer(s, !ok), c')
    case DropFinalizer(s, failed) =>
      var (c', r) := UpdateSession(c, k, s.(finalizer := false), o);
      (Idle(if r.Got? then Stop else Error), if failed && c' != c then c'.(leaked := c'.leaked + {s.uid}) else c')
    case PutFinalizer(s) =>
      var (c', r) := UpdateSession(c, k, s.(finalizer := true), o);
      (Idle(if r.Got? then Stop else Error), c')
    case FetchSpace(s) =>
      (match GetSpace(c, s.spaceRef, o)
       case Got(space) => if Expired(s, c.clock) then Expire(s) else Setup(s, space, SetupPlan(cfg, space))
       case Missing => Idle(Error)
       case Fault => Idle(Error), c)
    case Expire(s) =>
      var (c', ok) := DeleteSession(c, k, o);
      (Idle(if ok then Stop else Error), c')
    case Setup(s, space, todo) =>
      if todo == [] then (Idle(Error), c)
      else
        var (c', ok) := Act(c, k, todo[0], WhoOf(s, space), o);
        (if ok then SettingUp(cfg, s, space, todo[1..]) else Idle(Error), c')
    case ListForRestart(s) =>
      (match ListPods(c, k, o)
       case Got(pods) => Deleting(s, LiveNames(pods), {})
       case _ => Idle(Error), c)
    case DeletePods(s, pods, failed) =>
      if pods == [] then (Idle(Error), c)
      else
        var (c', ok) := DeletePod(c, k, pods[0], o);
        (Deleting(s, pods[1..], if ok then failed else failed + {pods[0]}), c')
    case MarkHandled(s, _) =>
      var (c', r) := UpdateSession(c, k, s.(handled := s.requested), o);
      (if r.Got? then RestartStatus(r.value) else Idle(Error), c')
    case RestartStatus(s) =>
      var (c', _) := UpdateStatus(c, k, s.(status := RestartingStatus(s.status)), o);
      (Idle(After(2 * SECOND)), c')
    case ListForWork(s, space) =>
      (match ListServices(c, cfg, space.selector, o)
       case Got(svcs) => Work(s, space, svcs, WorkPlan(cfg, k, s.userId, space, svcs))
       case _ => Idle(Error), c)
    case Work(s, space, svcs, todo) =>
      if todo == [] then (Idle(Error), c)
      else
        var (c', ok) := Act(c, k, todo[0], WhoOf(s, space), o);
        (if ok then Working(s, space, svcs, todo[1..], c'.clock) else Idle(Error), c')
    case ListForStatus(s, space, svcs, now) =>
      (match ListPods(c, k, o)
       case Got(pods) =>
         var (status, changed) := Synced(cfg, k, s.userId, s.status, space, svcs, pods, now);
         if changed then WriteStatus(s.(status := status)) else Idle(After(Requeue(status, c.clock)))
       case _ => Idle(Error), c)
    case WriteStatus(s) =>
      var (c', r) := UpdateStatus(c, k, s, o);
      (Idle(if r.Got? then After(Requeue(r.value.status, c'.clock)) else Error), c')
  }

  // --------------------------------------------------------------- the environment

  datatype EnvStep =
    | Tick(elapsed: nat)
    | UserCreates(k: string, userId: string, spaceRef: string, finalizer: bool, requested: string)
    | UserDeletes(k: string)
    | UserRestarts(k: string, value: string)
    | UserEdits(k: string, userId: string, spaceRef: string)
    | SpacesChange(spaces: map<string, Space>)
    | ServicesChange(services: seq<LabService>)
    | PodReports(k: string, index: nat, status: PodStatus)
    | PodTerminates(k: string, index: nat)
    | PodRemoved(k: string, index: nat)
    | ObjectPurged(k: string, key: Key)
    | ObjectCollected(k: string, key: Key)
    | NamespaceRemoved(k: string)

  const NEW_STATUS := Status(NoPhase, NoMessage, "", [], None, None)

  function NewSession(uid: Uid, userId: string, spaceRef: string, finalizer: bool, requested: string): Session {
    Session(uid, 0, userId, spaceRef, finalizer, false, requested, "", NEW_STATUS,
            History(if requested == "" then 0 else 1, 0))
  }

  /** The controller reference points at the current incarnation of session k. */
  predicate OwnerAlive(c: Cluster, k: string, owner: OwnerRef) {
    owner.Own? && k in c.sessions && c.sessions[k].uid == owner.uid
  }

  /** A step whose guard fails leaves the store alone; a create request uses up an identity. */
  function EnvApply(c: Cluster, e: EnvStep): Cluster {
    match e
    case Tick(d) => c.(clock := c.clock + d)
    case UserCreates(k, userId, spaceRef, finalizer, requested) =>
      c.(nextUid := c.nextUid + 1,
         sessions := if k in c.sessions then c.sessions
                     else c.sessions[k := NewSession(c.nextUid, userId, spaceRef, finalizer, requested)])
    case UserDeletes(k) => MarkSessionDeleted(c, k)
    case UserRestarts(k, v) =>
      if k !in c.sessions then c
      else
        var s := c.sessions[k];
        c.(sessions := c.sessions[k := s.(requested := v, version := s.version + 1,
                                          history := s.history.(bumps := s.history.bumps + 1))])
    case UserEdits(k, userId, spaceRef) =>
      if k !in c.sessions then c
      else
        var s := c.sessions[k];
        c.(sessions := c.sessions[k := s.(userId := userId, spaceRef := spaceRef, version := s.version + 1)])
    case SpacesChange(spaces) => c.(spaces := spaces)
    case ServicesChange(services) => if DistinctNames(services) then c.(services := services) else c
    case PodReports(k, i, status) =>
      var pods := PodsAt(c, k);
      if i < |pods| then WithPods(c, k, pods[i := pods[i].(status := status)]) else c
    case PodTerminates(k, i) =>
      var pods := PodsAt(c, k);
      if i < |pods| then WithPods(c, k, pods[i := pods[i].(terminating := true)]) else c
    case PodRemoved(k, i) =>
      var pods := PodsAt(c, k);
      if i < |pods| then WithPods(c, k, pods[..i] + pods[i + 1..]) else c
    case ObjectPurged(k, key) =>
      var ns := NamespaceAt(c, k);
      if ns.Some? && ns.value.terminating
      then WithNamespace(c, k, Some(ns.value.(objects := ns.value.objects - {key}))) else c
    case ObjectCollected(k, key) =>
      var ns := NamespaceAt(c, k);
      if ns.Some? && key in ns.value.objects && ns.value.objects[key].owner.Some?
         && !OwnerAlive(c, k, ns.value.objects[key].owner.value)
      then WithNamespace(c, k, Some(ns.value.(objects := ns.value.objects - {key}))) else c
    case NamespaceRemoved(k) =>
      var ns := NamespaceAt(c, k);
      if ns.Some? && ns.value.terminating then WithNamespace(c, k, None) else c
  }

  function EnvRun(c: Cluster, steps: seq<EnvStep>): Cluster
    decreases |steps|
  {
    if steps == [] then c else EnvRun(EnvApply(c, steps[0]), steps[1..])
  }

  // ------------------------------------------------------------- the whole system

  datatype System = System(cluster: Cluster, locals: map<string, Local>)

  function LocalOf(g: System, k: string): Local {
    if k in g.locals then g.locals[k] else Idle(Stop)
  }

  /** Ctl: the reconcile of k makes its next call, starting afresh when none is under way.
      Crash: the controller process dies. */
  datatype Move = Ctl(k: string, outcome: Outcome) | Crash(k: string) | Env(step: EnvStep)

  function Started(l: Local): Local {
    if l.Idle? then Begin else l
  }

  function Next(cfg: Config, g: System, move: Move): System {
    match move
    case Ctl(k, o) =>
      var (l, c) := Step(cfg, k, Started(LocalOf(g, k)), g.cluster, o);
      System(c, g.locals[k := l])
    case Crash(k) => g.(locals := g.locals[k := Idle(Error)])
    case Env(e) => g.(cluster := EnvApply(g.cluster, e))
  }

  function Run(cfg: Config, g: System, moves: seq<Move>): System {
    if moves == [] then g else Next(cfg, Run(cfg, g, moves[..|moves| - 1]), moves[|moves| - 1])
  }

  const EMPTY := Cluster(map[], map[], map[], [], 0, 0, {})
  const START := System(EMPTY, map[])

  // -------------------------------------------------- one reconcile from start to end

  /** What happens around one API call: first the environment, then the outcome. */
  datatype Turn = Turn(env: seq<EnvStep>, outcome: Outcome)

  function Stage(l: Local): nat {
    match l
    case Begin => 14
    case FetchSpace(_) => 13
    case Setup(_, _, _) => 12
    case ListForRestart(_) => 11
    case DeletePods(_, _, _) => 10
    case MarkHandled(_, _) => 9
    case RestartStatus(_) => 8
    case ListForWork(_, _) => 7
    case Work(_, _, _, _) => 6
    case ListForStatus(_, _, _, _) => 5
    case WriteStatus(_) => 4
    case Cleanup(_) => 3
    case DropFinalizer(_, _) => 2
    case PutFinalizer(_) => 2
    case Expire(_) => 2
    case Idle(_) => 0
  }

  function Remaining(l: Local): nat {
    match l
    case Setup(_, _, todo) => |todo|
    case DeletePods(_, pods, _) => |pods|
    case Work(_, _, _, todo) => |todo|
    case _ => 0
  }

  predicate Before(a: Local, b: Local) {
    Stage(a) < Stage(b) || (Stage(a) == Stage(b) && Remaining(a) < Remaining(b))
  }

  /** The calls that work through a list. */
  predicate Listed(l: Local) {
    l.Setup? || l.DeletePods? || l.Work?
  }

  lemma ListedProgress(cfg: Config, k: string, l: Local, c: Cluster, o: Outcome)
    requires Listed(l)
    ensures Before(Step(cfg, k, l, c, o).0, l)
  {
  }

  lemma OtherProgress(cfg: Config, k: string, l: Local, c: Cluster, o: Outcome)
    requires !l.Idle? && !Listed(l)
    ensures Stage(Step(cfg, k, l, c, o).0) < Stage(l)
  {
  }

  /** Every call brings the reconcile closer to its end. */
  lemma StepProgress(cfg: Config, k: string, l: Local, c: Cluster, o: Outcome)
    requires !l.Idle?
    ensures Before(Step(cfg, k, l, c, o).0, l)
  {
    if Listed(l) {
      ListedProgress(cfg, k, l, c, o);
    } else {
      OtherProgress(cfg, k, l, c, o);
    }
  }

  /** Runs the reconcile of k to its end; turn i surrounds the i-th call. */
  function Drive(cfg: Config, k: string, l: Local, c: Cluster, turns: nat -> Turn, i: nat): (Local, Cluster, nat)
    decreases Stage(l), Remaining(l)
  {
    if l.Idle? then (l, c, i)
    else
      var (l', c') := Step(cfg, k, l, EnvRun(c, turns(i).env), turns(i).outcome);
      StepProgress(cfg, k, l, EnvRun(c, turns(i).env), turns(i).outcome);
      Drive(cfg, k, l', c', turns, i + 1)
  }
}
