/** What one successful reconcile leaves behind, whatever was there before. */
module AfterReconcile {
  import opened Common
  import opened Egress
  import opened Names
  import opened Objects
  import opened Actions
  import opened Plans
  import opened StatusSync
  import opened Protocol
  import opened Invariants
  import opened Attempts
  import opened Convergence
  import opened Interleaved
  import Reach
  import Routes

  /** With nothing else going on, the session is written exactly when its status did not
      agree yet with the pods that are there in the end. */
  lemma WrittenOnlyOnChange(cfg: Config, k: string, c: Cluster, turns: nat -> Turn)
    requires Quiet(turns) && Live(c, k) && Succeeded(Drive(cfg, k, Begin, c, turns, 0).0)
    requires c.sessions[k].status.startTime.Some? <==> c.sessions[k].status.expiredTime.Some?
    ensures var d, s := Once(cfg, k, c, turns), c.sessions[k];
      && k in d.sessions
      && StatusAgrees(SpaceOf(c, k), ServicesOf(cfg, c, k), PodsAt(d, k), d.sessions[k].status)
      && (d.sessions == c.sessions
          <==> StatusAgrees(SpaceOf(c, k), ServicesOf(cfg, c, k), PodsAt(d, k), s.status))
  {
    var done := LiveAttempt(cfg, k, c, turns);
    var d := Once(cfg, k, c, turns);
    var s, space, svcs := c.sessions[k], SpaceOf(c, k), ServicesOf(cfg, c, k);
    SyncedAgrees(cfg, k, s.userId, s.status, space, svcs, PodsAt(d, k), c.clock);
    if SyncedAt(cfg, c, k, PodsAt(d, k)).1 {
      assert d.sessions[k] == WrittenAt(cfg, c, k, PodsAt(d, k));
      assert d.sessions[k].version != s.version;
    }
  }

  /** The policies are a function of the current templates: whatever history of edits the
      namespace has behind it, and while pods, clock and other sessions move between the
      calls, the baseline is that of the current space and each selected service has exactly
      the policy of its current rules, or none. */
  lemma PoliciesAfterSuccess(cfg: Config, k: string, c: Cluster, turns: nat -> Turn, i: nat)
    requires CalmTurns(turns, k) && Live(c, k) && DistinctNames(c.services) && NamespaceOk(c, k)
    requires Succeeded(Drive(cfg, k, Begin, c, turns, 0).0)
    requires i < |ServicesOf(cfg, c, k)|
    ensures var d := Once(cfg, k, c, turns);
      && NamespaceAt(d, k).Some?
      && var objects, svc := NamespaceAt(d, k).value.objects, ServicesOf(cfg, c, k)[i];
         var uid := c.sessions[k].uid;
         && Lookup(objects, BASELINE)
           == Some(Obj(Some(Own(uid)), PolicyBody(BaselinePolicy(SpaceOf(c, k).allowInternet))))
         && Lookup(objects, EgressKey(svc.name))
            == (if svc.egress == [] then None
                else Some(Obj(Some(Own(uid)), PolicyBody(ServicePolicy(svc.name, svc.egress)))))
  {
    var before := ObjectsAt(c, k);
    CalmReconcile(cfg, k, c, turns);
    var s, space, svcs := c.sessions[k], SpaceOf(c, k), ServicesOf(cfg, c, k);
    SelectedDistinct(cfg, space.selector, c.services);
    BaselineAfterPlan(cfg, k, s.userId, space, svcs, s.uid, before);
    ServicePolicyAfterPlan(cfg, k, s.userId, space, svcs, i, s.uid, before);
  }

  /** So a pod of selected service i reaches a destination exactly when the space gives it
      to every pod or one of the service's rules grants it. */
  lemma ReachAfterSuccess(cfg: Config, k: string, c: Cluster, turns: nat -> Turn, i: nat, net: Network, flow: Flow)
    requires CalmTurns(turns, k) && Live(c, k) && DistinctNames(c.services) && NamespaceOk(c, k)
    requires Succeeded(Drive(cfg, k, Begin, c, turns, 0).0)
    requires i < |ServicesOf(cfg, c, k)|
    ensures var d := Once(cfg, k, c, turns);
      && NamespaceAt(d, k).Some?
      && var svc := ServicesOf(cfg, c, k)[i];
         (Reach.Permits(net, NamespaceOf(k), NamespaceAt(d, k).value.objects, ServiceLabels(k, svc), flow)
          <==> BaselineIntent(NamespaceOf(k), SpaceOf(c, k).allowInternet, flow) || Granted(net, svc.egress, flow))
  {
    var before := ObjectsAt(c, k);
    CalmReconcile(cfg, k, c, turns);
    var s, space, svcs := c.sessions[k], SpaceOf(c, k), ServicesOf(cfg, c, k);
    SelectedDistinct(cfg, space.selector, c.services);
    Reach.ServiceReach(cfg, k, s.userId, space, svcs, i, s.uid, before, net, flow);
  }

  /** The setup objects are a function of the current space and configuration: quota, limit
      range and pull secret as they are to be, and nothing left of the old policy format. */
  lemma SettingsAfterSuccess(cfg: Config, k: string, c: Cluster, turns: nat -> Turn)
    requires CalmTurns(turns, k) && Live(c, k) && Succeeded(Drive(cfg, k, Begin, c, turns, 0).0)
    ensures SettingsFor(cfg, SpaceOf(c, k), c.sessions[k].uid, ObjectsAt(c, k), ObjectsAt(Once(cfg, k, c, turns), k))
  {
    CalmReconcile(cfg, k, c, turns);
    SettingsAfterPlan(cfg, k, c.sessions[k].userId, SpaceOf(c, k), ServicesOf(cfg, c, k), c.sessions[k].uid,
                      ObjectsAt(c, k));
  }

  /** With nothing else moving, a successful reconcile asks for the next one in a minute when
      the session it leaves is running and in two seconds otherwise, unless the expiry comes
      first: then exactly at the expiry. */
  lemma RequeueAfterSuccess(cfg: Config, k: string, c: Cluster, turns: nat -> Turn)
    requires Quiet(turns) && Live(c, k) && Succeeded(Drive(cfg, k, Begin, c, turns, 0).0)
    ensures var (l, d, _) := Drive(cfg, k, Begin, c, turns, 0);
      && l.Idle? && l.result.After? && k in d.sessions
      && var status := d.sessions[k].status;
         var most := if status.phase == Running then 60 * SECOND else 2 * SECOND;
         if DueWithin(status, c.clock, most) then c.clock + l.result.delay == status.expiredTime.value
         else l.result.delay == most
  {
    var done := LiveAttempt(cfg, k, c, turns);
    var d := Once(cfg, k, c, turns);
    if SyncedAt(cfg, c, k, PodsAt(d, k)).1 {
      assert d.sessions[k] == WrittenAt(cfg, c, k, PodsAt(d, k));
    }
  }

  // --------------------------------------------------------------- stale addresses

  /** After a successful reconcile the stored endpoints are the ones to publish exactly when
      their number was off or they were the ones to publish before. */
  lemma EndpointsFreshIff(cfg: Config, k: string, c: Cluster, turns: nat -> Turn)
    requires Quiet(turns) && Live(c, k) && Succeeded(Drive(cfg, k, Begin, c, turns, 0).0)
    ensures var d, s := Once(cfg, k, c, turns), c.sessions[k];
      var space, svcs := SpaceOf(c, k), ServicesOf(cfg, c, k);
      && k in d.sessions
      && (Publishes(cfg, k, s.userId, space, svcs, d.sessions[k].status.endpoints)
          <==> |s.status.endpoints| != EndpointCount(space, svcs)
               || Publishes(cfg, k, s.userId, space, svcs, s.status.endpoints))
  {
    var done := LiveAttempt(cfg, k, c, turns);
    var d := Once(cfg, k, c, turns);
    DesiredPublishes(cfg, k, c.sessions[k].userId, SpaceOf(c, k), ServicesOf(cfg, c, k));
    if SyncedAt(cfg, c, k, PodsAt(d, k)).1 {
      assert d.sessions[k] == WrittenAt(cfg, c, k, PodsAt(d, k));
    }
  }

  /** So a session without endpoints gets exactly the ones to publish: the workspace alone in
      an internal-only space, otherwise one more for each exposed service. */
  lemma FirstEndpoints(cfg: Config, k: string, c: Cluster, turns: nat -> Turn)
    requires Quiet(turns) && Live(c, k) && Succeeded(Drive(cfg, k, Begin, c, turns, 0).0)
    requires c.sessions[k].status.endpoints == []
    ensures var d := Once(cfg, k, c, turns);
      && k in d.sessions
      && Publishes(cfg, k, c.sessions[k].userId, SpaceOf(c, k), ServicesOf(cfg, c, k),
                   d.sessions[k].status.endpoints)
  {
    EndpointsFreshIff(cfg, k, c, turns);
  }

  lemma {:induction false} EndpointCountIgnoresUser(cfg: Config, a: string, b: string, svcs: seq<LabService>)
    ensures |ServiceEndpoints(cfg, a, svcs)| == |ServiceEndpoints(cfg, b, svcs)|
    decreases |svcs|
  {
    if svcs != [] {
      EndpointCountIgnoresUser(cfg, a, b, svcs[..|svcs| - 1]);
    }
  }

  /** The session still publishes the address of service i under its former user. */
  predicate PublishesFormer(cfg: Config, c: Cluster, k: string, former: string, svc: LabService) {
    && svc.exposure.Some? && k in c.sessions
    && ServiceEndpoint(cfg, former, svc) in c.sessions[k].status.endpoints
    && ServiceHostname(svc.name, former, cfg.Domain()) != ServiceHostname(svc.name, c.sessions[k].userId, cfg.Domain())
  }

  lemma FormerEndpointsStay(cfg: Config, k: string, c: Cluster, former: string, turns: nat -> Turn, i: nat)
    requires Quiet(turns) && Live(c, k) && Succeeded(Drive(cfg, k, Begin, c, turns, 0).0)
    requires former != c.sessions[k].userId
    requires c.sessions[k].status.endpoints == DesiredEndpoints(cfg, k, former, SpaceOf(c, k), ServicesOf(cfg, c, k))
    requires i < |ServicesOf(cfg, c, k)| && Routed(SpaceOf(c, k), ServicesOf(cfg, c, k)[i])
    ensures PublishesFormer(cfg, Once(cfg, k, c, turns), k, former, ServicesOf(cfg, c, k)[i])
  {
    var done := LiveAttempt(cfg, k, c, turns);
    var d := Once(cfg, k, c, turns);
    var s, svcs := c.sessions[k], ServicesOf(cfg, c, k);
    EndpointCountIgnoresUser(cfg, former, s.userId, svcs);
    OneAddress(cfg, former, svcs[i], ServiceEndpoint(cfg, former, svcs[i]));
    ServiceEndpointsOrigin(cfg, former, svcs, ServiceEndpoint(cfg, former, svcs[i]));
    ServiceHostnameOfUser(svcs[i].name, former, s.userId, cfg.Domain());
    if SyncedAt(cfg, c, k, PodsAt(d, k)).1 {
      assert d.sessions[k] == WrittenAt(cfg, c, k, PodsAt(d, k));
    }
  }

  lemma RouteAfterSuccess(cfg: Config, k: string, c: Cluster, turns: nat -> Turn, i: nat)
    requires CalmTurns(turns, k) && Live(c, k) && DistinctNames(c.services) && NamespaceOk(c, k)
    requires Succeeded(Drive(cfg, k, Begin, c, turns, 0).0)
    requires i < |ServicesOf(cfg, c, k)| && Routed(SpaceOf(c, k), ServicesOf(cfg, c, k)[i])
      && ServicesOf(cfg, c, k)[i].ports != []
    ensures var d, svc := Once(cfg, k, c, turns), ServicesOf(cfg, c, k)[i];
      && NamespaceAt(d, k).Some?
      && Routes.RoutesTo(NamespaceAt(d, k).value.objects, svc.name,
                         ServiceHostname(svc.name, c.sessions[k].userId, cfg.Domain()), svc.name, svc.ports[0].number)
  {
    var s, space, svcs := c.sessions[k], SpaceOf(c, k), ServicesOf(cfg, c, k);
    SelectedDistinct(cfg, space.selector, c.services);
    var before := ObjectsAt(c, k);
    CalmReconcile(cfg, k, c, turns);
    Routes.ServiceRouteAfterPlan(cfg, k, s.userId, space, svcs, i, s.uid, before);
  }

  function Edited(c: Cluster, k: string, user: string): Cluster
    requires k in c.sessions
  {
    EnvApply(c, UserEdits(k, user, c.sessions[k].spaceRef))
  }

  lemma EditedIsLive(cfg: Config, k: string, c: Cluster, user: string)
    requires Live(c, k) && NamespaceOk(c, k)
    ensures var e := Edited(c, k, user);
      && Live(e, k) && NamespaceOk(e, k) && e.services == c.services
      && SpaceOf(e, k) == SpaceOf(c, k) && ServicesOf(cfg, e, k) == ServicesOf(cfg, c, k)
      && e.sessions[k].userId == user && e.sessions[k].status == c.sessions[k].status
  {
    assert NamespaceAt(Edited(c, k, user), k) == NamespaceAt(c, k);
  }

  /** The user of a session whose endpoints are current is changed, and the next reconcile
      succeeds: every HTTP service then has its route under the new host name, while the
      session goes on publishing the old address. */
  lemma UserEditLeavesStaleAddress(cfg: Config, k: string, c: Cluster, user: string, turns: nat -> Turn, i: nat)
    requires AllDone(turns) && Live(c, k) && DistinctNames(c.services) && NamespaceOk(c, k)
    requires Routes.EndpointsCurrent(cfg, c, k) && user != c.sessions[k].userId
    requires i < |ServicesOf(cfg, c, k)| && Routed(SpaceOf(c, k), ServicesOf(cfg, c, k)[i])
      && ServicesOf(cfg, c, k)[i].ports != []
    requires Succeeded(Drive(cfg, k, Begin, Edited(c, k, user), turns, 0).0)
    ensures var d, svc := Once(cfg, k, Edited(c, k, user), turns), ServicesOf(cfg, c, k)[i];
      && PublishesFormer(cfg, d, k, c.sessions[k].userId, svc)
      && NamespaceAt(d, k).Some?
      && Routes.RoutesTo(NamespaceAt(d, k).value.objects, svc.name,
                         ServiceHostname(svc.name, user, cfg.Domain()), svc.name, svc.ports[0].number)
  {
    EditedIsLive(cfg, k, c, user);
    FormerEndpointsStay(cfg, k, Edited(c, k, user), c.sessions[k].userId, turns, i);
    RouteAfterSuccess(cfg, k, Edited(c, k, user), turns, i);
  }

  // ------------------------------------------------------------------- the workload

  /** Every pod in the end was there before or is freshly made. */
  lemma {:induction false} FreshOrFound(acts: seq<Action>, who: Birth, pods: seq<Pod>)
    ensures forall p :: p in ExecPods(acts, who, pods) ==> p in pods || !p.terminating
    decreases |acts|
  {
    if acts != [] {
      FreshOrFound(acts[1..], who, ApplyPods(acts[0], who, 0, pods));
    }
  }

  lemma ChallengeCreated(cfg: Config, k: string, userId: string, space: Space, svcs: seq<LabService>, i: nat)
    requires i < |svcs|
    ensures CreatePod(ServicePod(k, svcs[i])) in FullPlan(cfg, k, userId, space, svcs)
  {
    AllServiceActionsHas(cfg, k, userId, space, svcs, i);
    assert ServiceActions(cfg, k, userId, space, svcs[i])[0] == CreatePod(ServicePod(k, svcs[i]));
  }

  lemma DesktopCreated(cfg: Config, k: string, userId: string, space: Space, svcs: seq<LabService>)
    ensures CreatePod(WorkspacePod(k, space)) in FullPlan(cfg, k, userId, space, svcs)
  {
    assert WorkspaceActions(cfg, k, space)[1] == CreatePod(WorkspacePod(k, space));
  }

  /** A live pod of each name, or one that was on its way out before. */
  predicate PodStands(before: seq<Pod>, after: seq<Pod>, name: string) {
    exists i :: 0 <= i < |after| && after[i].name == name && (after[i].terminating ==> HasTerminating(before, name))
  }

  predicate HasTerminating(pods: seq<Pod>, name: string) {
    exists i :: 0 <= i < |pods| && pods[i].name == name && pods[i].terminating
  }

  lemma StandsAfter(plan: seq<Action>, who: Birth, pods: seq<Pod>, a: Action)
    requires a in plan && a.CreatePod?
    ensures PodStands(pods, ExecPods(plan, who, pods), a.template.name)
  {
    var end := ExecPods(plan, who, pods);
    ExecPodsKeeps(plan, who, pods);
    FreshOrFound(plan, who, pods);
    var i :| 0 <= i < |end| && end[i].name == a.template.name;
    if end[i].terminating {
      assert end[i] in pods;
      var j :| 0 <= j < |pods| && pods[j] == end[i];
      assert HasTerminating(pods, a.template.name);
    }
  }

  lemma ErasedStands(before: seq<Pod>, after: seq<Pod>, name: string)
    requires PodStands(EraseDraws(before), EraseDraws(after), name)
    ensures PodStands(before, after, name)
  {
    var e := EraseDraws(after);
    var i :| 0 <= i < |e| && e[i].name == name && (e[i].terminating ==> HasTerminating(EraseDraws(before), name));
    assert after[i].name == name;
    if after[i].terminating {
      var j :| 0 <= j < |EraseDraws(before)| && EraseDraws(before)[j].name == name && EraseDraws(before)[j].terminating;
      assert before[j].name == name && before[j].terminating;
    }
  }

  lemma EndPodsOf(plan: seq<Action>, who: Birth, ns: Option<Namespace>, pods: seq<Pod>)
    requires plan != [] && plan[0].EnsureNamespace?
    requires pods == if ns.Some? then ns.value.pods else []
    ensures Exec(plan, who, ns).Some? && Exec(plan, who, ns).value.pods == ExecPods(plan, who, pods)
  {
    var n := Apply(EnsureNamespace, who, 0, ns).value;
    assert Exec(plan, who, ns) == Exec(plan, who, Some(n));
    ExecParts(plan, who, n);
  }

  lemma PodsLeft(cfg: Config, k: string, c: Cluster, l: Local, d: Cluster, done: nat)
    requires Live(c, k) && DistinctNames(c.services) && Leaves(cfg, c, k, l, d, done) && done == |PlanOf(cfg, c, k)|
    ensures EraseDraws(PodsAt(d, k)) == ExecPods(PlanOf(cfg, c, k), WhoAt(c, k), EraseDraws(PodsAt(c, k)))
  {
    var plan := PlanOf(cfg, c, k);
    assert plan[..|plan|] == plan;
    PlanStarts(cfg, c, k);
    EndPodsOf(plan, WhoAt(c, k), Erase(NamespaceAt(c, k)), EraseDraws(PodsAt(c, k)));
  }

  /** The pods a successful reconcile leaves are those of the plan. */
  lemma PodsAfterSuccess(cfg: Config, k: string, c: Cluster, turns: nat -> Turn)
    requires Quiet(turns) && Live(c, k) && DistinctNames(c.services)
    requires Succeeded(Drive(cfg, k, Begin, c, turns, 0).0)
    ensures EraseDraws(PodsAt(Once(cfg, k, c, turns), k))
         == ExecPods(PlanOf(cfg, c, k), WhoAt(c, k), EraseDraws(PodsAt(c, k)))
  {
    var done := LiveAttempt(cfg, k, c, turns);
    var (l, d, _) := Drive(cfg, k, Begin, c, turns, 0);
    PodsLeft(cfg, k, c, l, d, done);
  }

  lemma StandsAfterSuccess(cfg: Config, k: string, c: Cluster, turns: nat -> Turn, a: Action)
    requires Quiet(turns) && Live(c, k) && DistinctNames(c.services)
    requires Succeeded(Drive(cfg, k, Begin, c, turns, 0).0)
    requires a in PlanOf(cfg, c, k) && a.CreatePod?
    ensures PodStands(PodsAt(c, k), PodsAt(Once(cfg, k, c, turns), k), a.template.name)
  {
    PodsAfterSuccess(cfg, k, c, turns);
    StandsAfter(PlanOf(cfg, c, k), WhoAt(c, k), EraseDraws(PodsAt(c, k)), a);
    ErasedStands(PodsAt(c, k), PodsAt(Once(cfg, k, c, turns), k), a.template.name);
  }

  /** A successful reconcile leaves the workspace pod and the pod of every selected service
      in the namespace, alive unless the pod of that name was terminating before: a restart
      is complete with the first success after the deleted pods are gone. */
  lemma WorkloadPresent(cfg: Config, k: string, c: Cluster, turns: nat -> Turn)
    requires Quiet(turns) && Live(c, k) && DistinctNames(c.services)
    requires Succeeded(Drive(cfg, k, Begin, c, turns, 0).0)
    ensures var d := Once(cfg, k, c, turns);
      && PodStands(PodsAt(c, k), PodsAt(d, k), WorkspaceName(k))
      && forall s :: s in ServicesOf(cfg, c, k) ==> PodStands(PodsAt(c, k), PodsAt(d, k), s.name)
  {
    var space, svcs := SpaceOf(c, k), ServicesOf(cfg, c, k);
    DesktopCreated(cfg, k, c.sessions[k].userId, space, svcs);
    StandsAfterSuccess(cfg, k, c, turns, CreatePod(WorkspacePod(k, space)));
    forall s | s in svcs ensures PodStands(PodsAt(c, k), PodsAt(Once(cfg, k, c, turns), k), s.name) {
      var i :| 0 <= i < |svcs| && svcs[i] == s;
      ChallengeCreated(cfg, k, c.sessions[k].userId, space, svcs, i);
      StandsAfterSuccess(cfg, k, c, turns, CreatePod(ServicePod(k, s)));
    }
  }

  // -------------------------------------------------------------- what is taken over

  /** A successful reconcile never touches a pod it finds, whoever made it, but takes the
      baseline over for the current incarnation: a namespace that outlived an earlier one
      is adopted with its pods. */
  lemma LeftoversAdopted(cfg: Config, k: string, c: Cluster, turns: nat -> Turn)
    requires Quiet(turns) && Live(c, k) && DistinctNames(c.services) && NamespaceOk(c, k)
    requires Succeeded(Drive(cfg, k, Begin, c, turns, 0).0)
    ensures var d := Once(cfg, k, c, turns);
      && EraseDraws(PodsAt(c, k)) <= EraseDraws(PodsAt(d, k))
      && NamespaceAt(d, k).Some? && BASELINE in NamespaceAt(d, k).value.objects
      && NamespaceAt(d, k).value.objects[BASELINE].owner == Some(Own(c.sessions[k].uid))
  {
    var s, space, svcs := c.sessions[k], SpaceOf(c, k), ServicesOf(cfg, c, k);
    PodsAfterSuccess(cfg, k, c, turns);
    ExecPodsKeeps(PlanOf(cfg, c, k), WhoAt(c, k), EraseDraws(PodsAt(c, k)));
    CalmReconcile(cfg, k, c, turns);
    BaselineAfterPlan(cfg, k, s.userId, space, svcs, s.uid, ObjectsAt(c, k));
  }
}
