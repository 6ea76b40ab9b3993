/** What a successful reconcile achieves while other things go on between its calls. */
module Interleaved {
  import opened Common
  import opened Names
  import opened Objects
  import opened Phases
  import opened Actions
  import opened StatusSync
  import opened Protocol
  import opened Invariants
  import opened Preservation
  import opened Attempts
  import opened Convergence
  import opened ApiCalls

  // ------------------------------------------------------------- the status, whatever moves

  datatype Point = Point(local: Local, cluster: Cluster, turn: nat)

  /** Where a reconcile stands when it is about to list the pods for the status pass. */
  function ListingPoint(cfg: Config, k: string, l: Local, c: Cluster, turns: nat -> Turn, i: nat): Option<Point>
    decreases Stage(l), Remaining(l)
  {
    if l.Idle? then None
    else if l.ListForStatus? then Some(Point(l, c, i))
    else
      var c1 := EnvRun(c, turns(i).env);
      var (l', c') := Step(cfg, k, l, c1, turns(i).outcome);
      StepProgress(cfg, k, l, c1, turns(i).outcome);
      ListingPoint(cfg, k, l', c', turns, i + 1)
  }

  predicate AfterListing(l: Local) {
    l.WriteStatus? || (l.Idle? && l.result.After?)
  }

  lemma EndsEarly(cfg: Config, k: string, l: Local, c: Cluster, o: Outcome)
    requires !l.Idle? && !l.ListForStatus? && !l.WriteStatus?
    ensures var l' := Step(cfg, k, l, c, o).0;
      !l'.WriteStatus? && (l'.Idle? && l'.result.After? ==> l.RestartStatus? && l' == Idle(After(2 * SECOND)))
  {
  }

  lemma PointStep(cfg: Config, k: string, l: Local, c: Cluster, turns: nat -> Turn, i: nat)
    requires !l.Idle? && !l.ListForStatus?
    ensures var (l', c') := Step(cfg, k, l, EnvRun(c, turns(i).env), turns(i).outcome);
      ListingPoint(cfg, k, l, c, turns, i) == ListingPoint(cfg, k, l', c', turns, i + 1)
  {
  }

  /** A reconcile that succeeds has listed the pods, or reported a restart. */
  lemma {:induction false} SuccessListed(cfg: Config, k: string, l: Local, c: Cluster, turns: nat -> Turn, i: nat)
    requires Ok(c, k, l) && !AfterListing(l)
    ensures var p := ListingPoint(cfg, k, l, c, turns, i);
      && (p.None? && Succeeded(Drive(cfg, k, l, c, turns, i).0)
          ==> Drive(cfg, k, l, c, turns, i).0 == Idle(After(2 * SECOND)))
      && (p.Some? ==>
            && p.value.local.ListForStatus? && Ok(p.value.cluster, k, p.value.local)
            && Drive(cfg, k, l, c, turns, i) == Drive(cfg, k, p.value.local, p.value.cluster, turns, p.value.turn))
    decreases Stage(l), Remaining(l)
  {
    if !l.Idle? && !l.ListForStatus? {
      var c1, o := EnvRun(c, turns(i).env), turns(i).outcome;
      var (l', c') := Step(cfg, k, l, c1, o);
      EnvRunOk(c, k, l, turns(i).env);
      StepOk(cfg, k, l, c1, o);
      StepProgress(cfg, k, l, c1, o);
      EndsEarly(cfg, k, l, c1, o);
      Unfold(cfg, k, l, c, turns, i);
      PointStep(cfg, k, l, c, turns, i);
      if l'.Idle? {
        Unfold(cfg, k, l', c', turns, i + 1);
      } else {
        SuccessListed(cfg, k, l', c', turns, i + 1);
      }
    }
  }

  /** The status agrees with the given pods, has as many endpoints as are to be published,
      and both timers. */
  predicate StatusAgrees(space: Space, svcs: seq<LabService>, pods: seq<Pod>, status: Status) {
    && Verdict(status.phase, status.message) == ComputePhase(pods)
    && |status.endpoints| == EndpointCount(space, svcs)
    && TimersSet(status)
  }

  lemma StoredAgrees(cfg: Config, k: string, userId: string, status: Status, space: Space, svcs: seq<LabService>,
                     pods: seq<Pod>, now: int)
    requires status.startTime.Some? <==> status.expiredTime.Some?
    ensures var (next, changed) := Synced(cfg, k, userId, status, space, svcs, pods, now);
      && StatusAgrees(space, svcs, pods, Stored(next))
      && Refreshed(cfg, k, userId, space, svcs, pods, now, status, Stored(next))
      && (!changed ==> StatusAgrees(space, svcs, pods, status) && next == status.(namespace := NamespaceOf(k)))
  {
    SyncedAgrees(cfg, k, userId, status, space, svcs, pods, now);
  }

  lemma WriteLeaves(cfg: Config, k: string, s: Session, c: Cluster, o: Outcome)
    requires Ok(c, k, WriteStatus(s))
    ensures var (d, r) := UpdateStatus(c, k, s, o);
      r.Got? ==> k in d.sessions && d.sessions[k].uid == s.uid && d.sessions[k].status == Stored(s.status)
  {
  }

  /** The status pass, whatever moves around its two calls: if it succeeds, what is stored
      agrees with the pods it had listed. */
  lemma ListedStatus(cfg: Config, k: string, s: Session, space: Space, svcs: seq<LabService>, now: int, c: Cluster,
                     turns: nat -> Turn, i: nat)
    requires Ok(c, k, ListForStatus(s, space, svcs, now))
    ensures var (l, d, _) := Drive(cfg, k, ListForStatus(s, space, svcs, now), c, turns, i);
      Succeeded(l) ==>
        && k in d.sessions && d.sessions[k].uid == s.uid
        && StatusAgrees(space, svcs, PodsAt(EnvRun(c, turns(i).env), k), d.sessions[k].status)
        && Refreshed(cfg, k, s.userId, space, svcs, PodsAt(EnvRun(c, turns(i).env), k), now, s.status,
                     d.sessions[k].status)
  {
    var l0 := ListForStatus(s, space, svcs, now);
    var c1 := EnvRun(c, turns(i).env);
    EnvRunOk(c, k, l0, turns(i).env);
    StatusUnfold(cfg, k, s, space, svcs, now, c, turns, i);
    StoredAgrees(cfg, k, s.userId, s.status, space, svcs, PodsAt(c1, k), now);
    var (status, changed) := Synced(cfg, k, s.userId, s.status, space, svcs, PodsAt(c1, k), now);
    if turns(i).outcome.Done? && changed {
      var l1 := WriteStatus(s.(status := status));
      StepOk(cfg, k, l0, c1, turns(i).outcome);
      EnvRunOk(c1, k, l1, turns(i + 1).env);
      WriteUnfold(cfg, k, s.(status := status), c1, turns, i + 1);
      WriteLeaves(cfg, k, s.(status := status), EnvRun(c1, turns(i + 1).env), turns(i + 1).outcome);
    }
  }

  /**
   * From any state a run can reach and whatever moves between the calls: when a reconcile
   * succeeds, it has reported a restart, or the stored status is the one it had read brought
   * up to date: the verdict on the pods just listed, the endpoints to publish unless their
   * number was right, and both timers.
   */
  lemma StatusAfterSuccess(cfg: Config, k: string, c: Cluster, turns: nat -> Turn)
    requires Ok(c, k, Begin) && Succeeded(Drive(cfg, k, Begin, c, turns, 0).0)
    ensures var (l, d, _) := Drive(cfg, k, Begin, c, turns, 0);
      var p := ListingPoint(cfg, k, Begin, c, turns, 0);
      if p.None? then l == Idle(After(2 * SECOND))
      else
        && p.value.local.ListForStatus?
        && var at := p.value.local;
           var listed := PodsAt(EnvRun(p.value.cluster, turns(p.value.turn).env), k);
           && k in d.sessions && d.sessions[k].uid == at.s.uid
           && StatusAgrees(at.space, at.svcs, listed, d.sessions[k].status)
           && Refreshed(cfg, k, at.s.userId, at.space, at.svcs, listed, at.now, at.s.status, d.sessions[k].status)
  {
    SuccessListed(cfg, k, Begin, c, turns, 0);
    var p := ListingPoint(cfg, k, Begin, c, turns, 0);
    if p.Some? {
      var at := p.value.local;
      ListedStatus(cfg, k, at.s, at.space, at.svcs, at.now, p.value.cluster, turns, p.value.turn);
    }
  }

  // -------------------------------------------------- the objects, while specs stay put

  /** Pods come and go, time passes and other sessions do as they like, but neither session
      k nor the templates nor the objects in its namespace change by somebody else's hand. */
  predicate Calm(e: EnvStep, k: string) {
    e.PodReports? || e.PodTerminates? || e.PodRemoved? || (!Touches(e, k) && !e.SpacesChange? && !e.ServicesChange?)
  }

  ghost predicate CalmTurns(turns: nat -> Turn, k: string) {
    forall i: nat :: forall e :: e in turns(i).env ==> Calm(e, k)
  }

  function ObjectsAt(c: Cluster, k: string): map<Key, Obj> {
    if NamespaceAt(c, k).Some? then NamespaceAt(c, k).value.objects else map[]
  }

  predicate SameSpecs(c: Cluster, d: Cluster, k: string) {
    && d.spaces == c.spaces && d.services == c.services && c.clock <= d.clock
    && (k in c.sessions <==> k in d.sessions)
    && (k in c.sessions ==> d.sessions[k] == c.sessions[k])
  }

  predicate SameObjects(c: Cluster, d: Cluster, k: string) {
    && (NamespaceAt(c, k).Some? <==> NamespaceAt(d, k).Some?)
    && ObjectsAt(d, k) == ObjectsAt(c, k)
  }

  lemma PodsElsewhere(c: Cluster, k: string, other: string, pods: seq<Pod>)
    ensures SameObjects(c, WithPods(c, other, pods), k)
  {
    if k != other {
      NamespacesDistinct(k, other);
    }
  }

  lemma CalmStep(c: Cluster, e: EnvStep, k: string)
    requires Calm(e, k)
    ensures SameSpecs(c, EnvApply(c, e), k) && SameObjects(c, EnvApply(c, e), k)
  {
    match e
    case PodReports(n, i, status) =>
      if i < |PodsAt(c, n)| { PodsElsewhere(c, k, n, PodsAt(c, n)[i := PodsAt(c, n)[i].(status := status)]); }
    case PodTerminates(n, i) =>
      if i < |PodsAt(c, n)| { PodsElsewhere(c, k, n, PodsAt(c, n)[i := PodsAt(c, n)[i].(terminating := true)]); }
    case PodRemoved(n, i) =>
      if i < |PodsAt(c, n)| { PodsElsewhere(c, k, n, PodsAt(c, n)[..i] + PodsAt(c, n)[i + 1..]); }
    case _ => EnvElsewhere(c, e, k);
  }

  lemma {:induction false} CalmRun(c: Cluster, steps: seq<EnvStep>, k: string)
    requires forall e :: e in steps ==> Calm(e, k)
    ensures SameSpecs(c, EnvRun(c, steps), k) && SameObjects(c, EnvRun(c, steps), k)
    decreases |steps|
  {
    if steps != [] {
      CalmStep(c, steps[0], k);
      CalmRun(EnvApply(c, steps[0]), steps[1..], k);
    }
  }

  lemma ActObjects(c: Cluster, k: string, a: Action, who: Birth, o: Outcome)
    ensures var (c', ok) := Act(c, k, a, who, o);
      && SameSpecs(c, c', k)
      && (ok ==> ObjectsAt(c', k) == ApplyObjects(a, who.uid, ObjectsAt(c, k)))
      && (ok && (a.EnsureNamespace? || NamespaceAt(c, k).Some?) ==> NamespaceAt(c', k).Some?)
  {
  }

  /** A stretch of calls that goes through writes exactly its actions. */
  lemma {:induction false} CalmActs(k: string, acts: seq<Action>, who: Birth, c: Cluster, turns: nat -> Turn, i: nat)
    requires CalmTurns(turns, k)
    ensures var (d, _, ok) := RunActs(k, acts, who, c, turns, i);
      && SameSpecs(c, d, k)
      && (ok ==> ObjectsAt(d, k) == ExecObjects(acts, who.uid, ObjectsAt(c, k)))
      && (ok && (NamespaceAt(c, k).Some? || (acts != [] && acts[0].EnsureNamespace?)) ==> NamespaceAt(d, k).Some?)
    decreases |acts|
  {
    if acts != [] {
      var c1 := EnvRun(c, turns(i).env);
      CalmRun(c, turns(i).env, k);
      ActObjects(c1, k, acts[0], who, turns(i).outcome);
      var (c2, ok) := Act(c1, k, acts[0], who, turns(i).outcome);
      if ok {
        CalmActs(k, acts[1..], who, c2, turns, i + 1);
      }
    }
  }

  lemma CalmWrite(cfg: Config, k: string, s: Session, c: Cluster, turns: nat -> Turn, i: nat)
    requires CalmTurns(turns, k)
    ensures SameObjects(c, Drive(cfg, k, WriteStatus(s), c, turns, i).1, k)
  {
    CalmRun(c, turns(i).env, k);
    WriteUnfold(cfg, k, s, c, turns, i);
  }

  lemma ListingStep(cfg: Config, k: string, l: Local, c: Cluster, o: Outcome)
    requires l.ListForStatus?
    ensures var (l', c') := Step(cfg, k, l, c, o); c' == c && (l'.Idle? || l'.WriteStatus?)
  {
  }

  /** The status pass leaves the objects alone. */
  lemma CalmStatus(cfg: Config, k: string, l: Local, c: Cluster, turns: nat -> Turn, i: nat)
    requires CalmTurns(turns, k) && l.ListForStatus?
    ensures SameObjects(c, Drive(cfg, k, l, c, turns, i).1, k)
  {
    var c1 := EnvRun(c, turns(i).env);
    var l1 := Step(cfg, k, l, c1, turns(i).outcome).0;
    CalmRun(c, turns(i).env, k);
    ListingStep(cfg, k, l, c1, turns(i).outcome);
    Unfold(cfg, k, l, c, turns, i);
    if l1.WriteStatus? {
      CalmWrite(cfg, k, l1.s, c1, turns, i + 1);
    } else {
      Unfold(cfg, k, l1, c1, turns, i + 1);
    }
  }

  /** The workspace and service calls and the status pass. */
  lemma CalmWork(cfg: Config, k: string, c: Cluster, d: Cluster, turns: nat -> Turn, i: nat)
    requires CalmTurns(turns, k) && Live(c, k) && SameSpecs(c, d, k) && NamespaceAt(d, k).Some?
    requires Succeeded(Drive(cfg, k, ListForWork(c.sessions[k], SpaceOf(c, k)), d, turns, i).0)
    ensures var s, space := c.sessions[k], SpaceOf(c, k);
      var e := Drive(cfg, k, ListForWork(s, space), d, turns, i).1;
      && NamespaceAt(e, k).Some?
      && ObjectsAt(e, k)
        == ExecObjects(WorkPlan(cfg, k, s.userId, space, ServicesOf(cfg, c, k)), s.uid, ObjectsAt(d, k))
  {
    var s, space, svcs := c.sessions[k], SpaceOf(c, k), ServicesOf(cfg, c, k);
    var work := WorkPlan(cfg, k, s.userId, space, svcs);
    var d1 := EnvRun(d, turns(i).env);
    CalmRun(d, turns(i).env, k);
    ListUnfold(cfg, k, s, space, d, turns, i);
    WorkStretch(cfg, k, s, space, svcs, work, d1, turns, i + 1);
    CalmActs(k, work, WhoOf(s, space), d1, turns, i + 1);
    var (d2, j, _) := RunActs(k, work, WhoOf(s, space), d1, turns, i + 1);
    CalmStatus(cfg, k, ListForStatus(s, space, svcs, d2.clock), d2, turns, j);
  }

  /** The whole of it: a live reconcile that succeeds leaves the objects of its plan. */
  lemma CalmReconcile(cfg: Config, k: string, c: Cluster, turns: nat -> Turn)
    requires CalmTurns(turns, k) && Live(c, k) && Succeeded(Drive(cfg, k, Begin, c, turns, 0).0)
    ensures var d := Once(cfg, k, c, turns);
      NamespaceAt(d, k).Some? && ObjectsAt(d, k) == ExecObjects(PlanOf(cfg, c, k), WhoAt(c, k).uid, ObjectsAt(c, k))
  {
    var s, space := c.sessions[k], SpaceOf(c, k);
    var c1 := EnvRun(c, turns(0).env);
    var c2 := EnvRun(c1, turns(1).env);
    CalmRun(c, turns(0).env, k);
    CalmRun(c1, turns(1).env, k);
    BeginUnfold(cfg, k, c, turns, 0);
    FetchUnfold(cfg, k, s, c1, turns, 1);
    ExpireFails(cfg, k, s, c2, turns, 2);
    SetupStretch(cfg, k, s, space, SetupPlan(cfg, space), c2, turns, 2);
    CalmActs(k, SetupPlan(cfg, space), WhoOf(s, space), c2, turns, 2);
    var (c3, i, _) := RunActs(k, SetupPlan(cfg, space), WhoOf(s, space), c2, turns, 2);
    CalmWork(cfg, k, c, c3, turns, i);
    ExecObjectsConcat(SetupPlan(cfg, space), WorkPlan(cfg, k, s.userId, space, ServicesOf(cfg, c, k)), s.uid,
                      ObjectsAt(c, k));
  }

  lemma ExpireFails(cfg: Config, k: string, s: Session, c: Cluster, turns: nat -> Turn, i: nat)
    ensures !Succeeded(Drive(cfg, k, Expire(s), c, turns, i).0)
  {
    LastCallUnfold(cfg, k, Expire(s), c, turns, i);
  }
}
