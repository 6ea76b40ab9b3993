/** What is in the pods a successful reconcile makes, and whether the server takes them. */
module Workload {
  import opened Common
  import opened Resources
  import opened Names
  import opened Objects
  import opened Actions
  import opened Plans
  import opened Protocol
  import opened Attempts
  import opened Convergence
  import opened Interleaved
  import opened AfterReconcile

  // ------------------------------------------------------------- two kinds of pods

  /** The desktop pod of session k, owned by the incarnation that made it. */
  predicate IsDesktop(k: string, space: Space, p: Pod) {
    && p.name == "workspace-" + k
    && p.labels == map["app" := p.name, "ctf.school/role" := "workspace", "ctf.school/session" := k]
    && p.owner == Some(Own(p.birth.uid))
    && DesktopContainers(space, p.containers)
  }

  /** The pod of one service in session k; it has no owner. */
  predicate IsChallenge(k: string, svc: LabService, p: Pod) {
    && p.name == svc.name
    && p.labels == map["app" := p.name, "ctf.school/svc" := p.name, "ctf.school/sess" := k]
    && p.owner == None
    && ChallengeContainers(svc, p.containers)
  }

  /** Just made by this reconcile, and not reported on yet. */
  predicate FreshlyMade(who: Birth, p: Pod) {
    !p.terminating && p.status == FRESH_STATUS && p.birth == who && p.deletes == 0
  }

  predicate Made(k: string, space: Space, svcs: seq<LabService>, who: Birth, p: Pod) {
    FreshlyMade(who, p) && (IsDesktop(k, space, p) || exists s :: s in svcs && IsChallenge(k, s, p))
  }

  lemma DesktopPod(k: string, space: Space, who: Birth)
    ensures var p := NewPod(WorkspacePod(k, space), who, 0); IsDesktop(k, space, p) && FreshlyMade(who, p)
  {
    DesktopBackfilled(space.workspaceResources);
  }

  lemma ChallengePod(k: string, svc: LabService, who: Birth)
    ensures var p := NewPod(ServicePod(k, svc), who, 0); IsChallenge(k, svc, p) && FreshlyMade(who, p)
  {
    ServiceBackfilled(svc.resources);
  }

  // ---------------------------------------------------------- what a plan creates

  lemma {:induction false} ServiceTemplates(cfg: Config, k: string, userId: string, space: Space,
                                            svcs: seq<LabService>, a: Action)
    requires a in AllServiceActions(cfg, k, userId, space, svcs) && a.CreatePod?
    ensures exists s :: s in svcs && a.template == ServicePod(k, s)
    decreases |svcs|
  {
    if a in ServiceActions(cfg, k, userId, space, svcs[0]) {
      assert svcs[0] in svcs && a.template == ServicePod(k, svcs[0]);
    } else {
      ServiceTemplates(cfg, k, userId, space, svcs[1..], a);
      var s :| s in svcs[1..] && a.template == ServicePod(k, s);
      assert s in svcs;
    }
  }

  lemma SetupCreatesNone(cfg: Config, space: Space, a: Action)
    requires a in SetupPlan(cfg, space)
    ensures !a.CreatePod?
  {
    if a in QuotaActions(space) || a in LimitRangeActions(space) || a in PullSecretActions(cfg) {
    } else {
      assert a == EnsureNamespace || a == Drop(LEGACY_POLICY) || a == BaselineAction(space);
    }
  }

  lemma PlanTemplates(cfg: Config, k: string, userId: string, space: Space, svcs: seq<LabService>, a: Action)
    requires a in FullPlan(cfg, k, userId, space, svcs) && a.CreatePod?
    ensures a.template == WorkspacePod(k, space) || exists s :: s in svcs && a.template == ServicePod(k, s)
  {
    if a in SetupPlan(cfg, space) {
      SetupCreatesNone(cfg, space, a);
    } else if a in AllServiceActions(cfg, k, userId, space, svcs) {
      ServiceTemplates(cfg, k, userId, space, svcs, a);
    } else {
      assert a in WorkspaceActions(cfg, k, space);
    }
  }

  /** Every pod that was not there before comes from a template of the plan. */
  lemma {:induction false} FromTemplate(acts: seq<Action>, who: Birth, pods: seq<Pod>, i: nat)
    requires |pods| <= i < |ExecPods(acts, who, pods)|
    ensures exists a :: a in acts && a.CreatePod? && ExecPods(acts, who, pods)[i] == NewPod(a.template, who, 0)
    decreases |acts|
  {
    var next := ApplyPods(acts[0], who, 0, pods);
    if i < |next| {
      ExecPodsKeeps(acts[1..], who, next);
      assert ExecPods(acts, who, pods)[i] == next[i] == NewPod(acts[0].template, who, 0);
      assert acts[0] in acts;
    } else {
      FromTemplate(acts[1..], who, next, i);
      var a :| a in acts[1..] && a.CreatePod? && ExecPods(acts, who, pods)[i] == NewPod(a.template, who, 0);
      assert a in acts;
    }
  }

  predicate Creates(a: Action, name: string) {
    a.CreatePod? && a.template.name == name
  }

  lemma {:induction false} StaysAbsent(acts: seq<Action>, who: Birth, pods: seq<Pod>, name: string)
    requires !HasPod(pods, name) && forall a :: a in acts ==> !Creates(a, name)
    ensures !HasPod(ExecPods(acts, who, pods), name)
    decreases |acts|
  {
    if acts != [] {
      assert acts[0] in acts;
      HasPodAfter(acts[0], who, 0, pods, name);
      StaysAbsent(acts[1..], who, ApplyPods(acts[0], who, 0, pods), name);
    }
  }

  /** The first template of a name that is not taken decides what the pod of that name is. */
  lemma FirstTemplate(x: seq<Action>, t: PodTemplate, y: seq<Action>, who: Birth, pods: seq<Pod>)
    requires !HasPod(pods, t.name) && forall a :: a in x ==> !Creates(a, t.name)
    ensures var end := ExecPods(x + [CreatePod(t)] + y, who, pods);
      exists i :: |pods| <= i < |end| && end[i] == NewPod(t, who, 0)
  {
    var mid := ExecPods(x, who, pods);
    var next := mid + [NewPod(t, who, 0)];
    StaysAbsent(x, who, pods, t.name);
    ExecPodsConcat(x + [CreatePod(t)], y, who, pods);
    ExecPodsConcat(x, [CreatePod(t)], who, pods);
    assert [CreatePod(t)][1..] == [];
    assert ExecPods(x + [CreatePod(t)], who, pods) == next;
    ExecPodsKeeps(x, who, pods);
    ExecPodsKeeps(y, who, next);
    assert ExecPods(y, who, next)[|mid|] == next[|mid|];
  }

  function BeforeDesktop(cfg: Config, space: Space): seq<Action> {
    SetupPlan(cfg, space) + [ListTasks(cfg.validSelector(space.selector))]
  }

  lemma SplitAtDesktopPod(cfg: Config, k: string, userId: string, space: Space, svcs: seq<LabService>)
    returns (after: seq<Action>)
    ensures FullPlan(cfg, k, userId, space, svcs)
         == BeforeDesktop(cfg, space) + [CreatePod(WorkspacePod(k, space))] + after
  {
    var setup, services := SetupPlan(cfg, space), AllServiceActions(cfg, k, userId, space, svcs);
    var list, pod := ListTasks(cfg.validSelector(space.selector)), CreatePod(WorkspacePod(k, space));
    var rest := [WorkspaceServiceAction(k), WorkspaceRouteAction(cfg, k)];
    assert WorkspaceActions(cfg, k, space) == [list] + [pod] + rest;
    Regroup(setup, [list], pod, rest, services);
    after := rest + services;
  }

  lemma DesktopFirst(cfg: Config, k: string, userId: string, space: Space, svcs: seq<LabService>, who: Birth,
                     pods: seq<Pod>)
    requires !HasPod(pods, WorkspaceName(k))
    ensures var end := ExecPods(FullPlan(cfg, k, userId, space, svcs), who, pods);
      exists i :: |pods| <= i < |end| && end[i] == NewPod(WorkspacePod(k, space), who, 0)
  {
    var after := SplitAtDesktopPod(cfg, k, userId, space, svcs);
    forall a | a in BeforeDesktop(cfg, space) ensures !Creates(a, WorkspaceName(k)) {
      if a in SetupPlan(cfg, space) {
        SetupCreatesNone(cfg, space, a);
      }
    }
    FirstTemplate(BeforeDesktop(cfg, space), WorkspacePod(k, space), after, who, pods);
  }

  /** The calls before the pod of service i. */
  function UpTo(cfg: Config, k: string, userId: string, space: Space, svcs: seq<LabService>, i: nat): seq<Action>
    requires i < |svcs|
  {
    SetupPlan(cfg, space) + WorkspaceActions(cfg, k, space) + AllServiceActions(cfg, k, userId, space, svcs[..i])
  }

  lemma EarlierNames(cfg: Config, k: string, userId: string, space: Space, svcs: seq<LabService>, i: nat, a: Action)
    requires i < |svcs| && DistinctNames(svcs) && svcs[i].name != WorkspaceName(k)
    requires a in UpTo(cfg, k, userId, space, svcs, i)
    ensures !Creates(a, svcs[i].name)
  {
    if a in SetupPlan(cfg, space) {
      SetupCreatesNone(cfg, space, a);
    } else if a in AllServiceActions(cfg, k, userId, space, svcs[..i]) {
      if a.CreatePod? {
        ServiceTemplates(cfg, k, userId, space, svcs[..i], a);
        var s :| s in svcs[..i] && a.template == ServicePod(k, s);
        var j :| 0 <= j < i && svcs[j] == s;
      }
    } else {
      assert a in WorkspaceActions(cfg, k, space);
    }
  }

  lemma PodCallFirst(cfg: Config, k: string, userId: string, space: Space, s: LabService)
    ensures var rest := [EgressAction(s), ServiceAction(s)] + RouteActions(cfg, userId, space, s);
      ServiceActions(cfg, k, userId, space, s) == [] + [CreatePod(ServicePod(k, s))] + rest
  {
  }

  lemma SplitAtPod(cfg: Config, k: string, userId: string, space: Space, svcs: seq<LabService>, i: nat)
    returns (after: seq<Action>)
    requires i < |svcs|
    ensures FullPlan(cfg, k, userId, space, svcs)
         == UpTo(cfg, k, userId, space, svcs, i) + [CreatePod(ServicePod(k, svcs[i]))] + after
  {
    var s := svcs[i];
    var setup, desktop := SetupPlan(cfg, space), WorkspaceActions(cfg, k, space);
    var earlier, later := AllServiceActions(cfg, k, userId, space, svcs[..i]),
      AllServiceActions(cfg, k, userId, space, svcs[i + 1..]);
    var rest := [EgressAction(s), ServiceAction(s)] + RouteActions(cfg, userId, space, s);
    AllServiceActionsHas(cfg, k, userId, space, svcs, i);
    PodCallFirst(cfg, k, userId, space, s);
    Associate(setup, desktop, earlier + (ServiceActions(cfg, k, userId, space, s) + later));
    Associate(setup + desktop, earlier, ServiceActions(cfg, k, userId, space, s) + later);
    Regroup(UpTo(cfg, k, userId, space, svcs, i), [], CreatePod(ServicePod(k, s)), rest, later);
    assert UpTo(cfg, k, userId, space, svcs, i) + [] == UpTo(cfg, k, userId, space, svcs, i);
    after := rest + later;
  }

  lemma ChallengeFirst(cfg: Config, k: string, userId: string, space: Space, svcs: seq<LabService>, i: nat,
                       who: Birth, pods: seq<Pod>)
    requires i < |svcs| && DistinctNames(svcs) && svcs[i].name != WorkspaceName(k)
    requires !HasPod(pods, svcs[i].name)
    ensures var end := ExecPods(FullPlan(cfg, k, userId, space, svcs), who, pods);
      exists j :: |pods| <= j < |end| && end[j] == NewPod(ServicePod(k, svcs[i]), who, 0)
  {
    var x := UpTo(cfg, k, userId, space, svcs, i);
    var after := SplitAtPod(cfg, k, userId, space, svcs, i);
    forall a | a in x ensures !Creates(a, svcs[i].name) {
      EarlierNames(cfg, k, userId, space, svcs, i, a);
    }
    FirstTemplate(x, ServicePod(k, svcs[i]), after, who, pods);
  }

  // ------------------------------------------------------------- after a success

  lemma MadeErased(k: string, space: Space, svcs: seq<LabService>, who: Birth, p: Pod)
    ensures FreshlyMade(who, p.(draw := 0)) <==> FreshlyMade(who, p)
    ensures IsDesktop(k, space, p.(draw := 0)) <==> IsDesktop(k, space, p)
    ensures forall s :: s in svcs ==> (IsChallenge(k, s, p.(draw := 0)) <==> IsChallenge(k, s, p))
  {
  }

  lemma MadeByPlan(cfg: Config, k: string, userId: string, space: Space, svcs: seq<LabService>, who: Birth,
                   pods: seq<Pod>, i: nat)
    requires |pods| <= i < |ExecPods(FullPlan(cfg, k, userId, space, svcs), who, pods)|
    ensures Made(k, space, svcs, who, ExecPods(FullPlan(cfg, k, userId, space, svcs), who, pods)[i])
  {
    var plan := FullPlan(cfg, k, userId, space, svcs);
    FromTemplate(plan, who, pods, i);
    var a :| a in plan && a.CreatePod? && ExecPods(plan, who, pods)[i] == NewPod(a.template, who, 0);
    PlanTemplates(cfg, k, userId, space, svcs, a);
    if a.template == WorkspacePod(k, space) {
      DesktopPod(k, space, who);
    } else {
      var s :| s in svcs && a.template == ServicePod(k, s);
      ChallengePod(k, s, who);
    }
  }

  /** A successful reconcile leaves the pods it found as they were, and every further pod is a
      desktop or the challenge of a selected service, with the containers it is to have. */
  lemma PodsMade(cfg: Config, k: string, c: Cluster, turns: nat -> Turn)
    requires Quiet(turns) && Live(c, k) && DistinctNames(c.services)
    requires Succeeded(Drive(cfg, k, Begin, c, turns, 0).0)
    ensures var before, after := PodsAt(c, k), PodsAt(Once(cfg, k, c, turns), k);
      && |before| <= |after|
      && (forall i :: 0 <= i < |before| ==> after[i].(draw := before[i].draw) == before[i])
      && (forall i :: |before| <= i < |after|
            ==> Made(k, SpaceOf(c, k), ServicesOf(cfg, c, k), WhoAt(c, k), after[i]))
  {
    var before, after := PodsAt(c, k), PodsAt(Once(cfg, k, c, turns), k);
    var userId, space, svcs := c.sessions[k].userId, SpaceOf(c, k), ServicesOf(cfg, c, k);
    PodsAfterSuccess(cfg, k, c, turns);
    ExecPodsKeeps(PlanOf(cfg, c, k), WhoAt(c, k), EraseDraws(before));
    forall i | 0 <= i < |before| ensures after[i].(draw := before[i].draw) == before[i] {
      assert EraseDraws(before)[i] == EraseDraws(after)[i];
    }
    forall i | |before| <= i < |after| ensures Made(k, space, svcs, WhoAt(c, k), after[i]) {
      MadeByPlan(cfg, k, userId, space, svcs, WhoAt(c, k), EraseDraws(before), i);
      MadeErased(k, space, svcs, WhoAt(c, k), after[i]);
    }
  }

  /** Pod i of the list was not among the first n, and is the desktop. */
  predicate DesktopAfter(k: string, space: Space, pods: seq<Pod>, n: nat) {
    exists i :: n <= i < |pods| && IsDesktop(k, space, pods[i])
  }

  predicate ChallengeAfter(k: string, svc: LabService, pods: seq<Pod>, n: nat) {
    exists i :: n <= i < |pods| && IsChallenge(k, svc, pods[i])
  }

  lemma DesktopLeft(k: string, space: Space, who: Birth, before: seq<Pod>, after: seq<Pod>, i: nat)
    requires |before| <= i < |after| && EraseDraws(after)[i] == NewPod(WorkspacePod(k, space), who, 0)
    ensures DesktopAfter(k, space, after, |before|)
  {
    DesktopPod(k, space, who);
    MadeErased(k, space, [], who, after[i]);
  }

  lemma ChallengeLeft(k: string, svc: LabService, who: Birth, before: seq<Pod>, after: seq<Pod>, i: nat)
    requires |before| <= i < |after| && EraseDraws(after)[i] == NewPod(ServicePod(k, svc), who, 0)
    ensures ChallengeAfter(k, svc, after, |before|)
  {
    ChallengePod(k, svc, who);
    assert EraseDraws(after)[i] == after[i].(draw := 0);
    assert IsChallenge(k, svc, after[i]);
  }

  lemma DesktopMade(cfg: Config, k: string, c: Cluster, turns: nat -> Turn)
    requires Quiet(turns) && Live(c, k) && DistinctNames(c.services)
    requires Succeeded(Drive(cfg, k, Begin, c, turns, 0).0) && !HasPod(PodsAt(c, k), WorkspaceName(k))
    ensures DesktopAfter(k, SpaceOf(c, k), PodsAt(Once(cfg, k, c, turns), k), |PodsAt(c, k)|)
  {
    var before, after := PodsAt(c, k), PodsAt(Once(cfg, k, c, turns), k);
    var space, svcs := SpaceOf(c, k), ServicesOf(cfg, c, k);
    PodsAfterSuccess(cfg, k, c, turns);
    EraseKeepsNames(before, WorkspaceName(k));
    DesktopFirst(cfg, k, c.sessions[k].userId, space, svcs, WhoAt(c, k), EraseDraws(before));
    var i :| |before| <= i < |after| && EraseDraws(after)[i] == NewPod(WorkspacePod(k, space), WhoAt(c, k), 0);
    DesktopLeft(k, space, WhoAt(c, k), before, after, i);
  }

  lemma ChallengeMade(cfg: Config, k: string, c: Cluster, turns: nat -> Turn, s: LabService)
    requires Quiet(turns) && Live(c, k) && DistinctNames(c.services)
    requires Succeeded(Drive(cfg, k, Begin, c, turns, 0).0) && !HasPod(PodsAt(c, k), s.name)
    requires s in ServicesOf(cfg, c, k) && s.name != WorkspaceName(k)
    ensures ChallengeAfter(k, s, PodsAt(Once(cfg, k, c, turns), k), |PodsAt(c, k)|)
  {
    var before, after := PodsAt(c, k), PodsAt(Once(cfg, k, c, turns), k);
    var space, svcs := SpaceOf(c, k), ServicesOf(cfg, c, k);
    SelectedDistinct(cfg, space.selector, c.services);
    var n :| 0 <= n < |svcs| && svcs[n] == s;
    PodsAfterSuccess(cfg, k, c, turns);
    EraseKeepsNames(before, s.name);
    ChallengeFirst(cfg, k, c.sessions[k].userId, space, svcs, n, WhoAt(c, k), EraseDraws(before));
    var i :| |before| <= i < |after| && EraseDraws(after)[i] == NewPod(ServicePod(k, s), WhoAt(c, k), 0);
    ChallengeLeft(k, s, WhoAt(c, k), before, after, i);
  }

  /** And it makes each of them wherever its name was free: the desktop, and the challenge of
      every selected service that did not take the desktop's name. */
  lemma WorkloadMade(cfg: Config, k: string, c: Cluster, turns: nat -> Turn)
    requires Quiet(turns) && Live(c, k) && DistinctNames(c.services)
    requires Succeeded(Drive(cfg, k, Begin, c, turns, 0).0)
    ensures var before, after := PodsAt(c, k), PodsAt(Once(cfg, k, c, turns), k);
      && (!HasPod(before, WorkspaceName(k)) ==> DesktopAfter(k, SpaceOf(c, k), after, |before|))
      && (forall s :: s in ServicesOf(cfg, c, k) && s.name != WorkspaceName(k) && !HasPod(before, s.name)
            ==> ChallengeAfter(k, s, after, |before|))
  {
    var before, after := PodsAt(c, k), PodsAt(Once(cfg, k, c, turns), k);
    if !HasPod(before, WorkspaceName(k)) {
      DesktopMade(cfg, k, c, turns);
    }
    forall s | s in ServicesOf(cfg, c, k) && s.name != WorkspaceName(k) && !HasPod(before, s.name)
      ensures ChallengeAfter(k, s, after, |before|)
    {
      ChallengeMade(cfg, k, c, turns, s);
    }
  }

  // -------------------------------------------------------------------- admission

  predicate PodDeclares(defaults: Requirements, p: Pod) {
    forall i :: 0 <= i < |p.containers| ==> Declares(Effective(defaults, p.containers[i].requirements))
  }

  predicate Taken(defaults: Requirements, container: Container) {
    Fits(Effective(defaults, container.requirements))
  }

  predicate PodFits(defaults: Requirements, p: Pod) {
    forall i :: 0 <= i < |p.containers| ==> Taken(defaults, p.containers[i])
  }

  lemma GuardTaken(name: string)
    ensures Taken(CONTAINER_DEFAULTS, Container(name, GUARD))
  {
    var e := Effective(CONTAINER_DEFAULTS, GUARD);
    assert e.requests == GUARD.requests && e.limits == GUARD.limits;
  }

  lemma BareContainerTaken(name: string)
    ensures Taken(CONTAINER_DEFAULTS, Container(name, Requirements(map[], map[])))
  {
    var e := Effective(CONTAINER_DEFAULTS, Requirements(map[], map[]));
    assert e.requests == LIMIT_RANGE_REQUESTS && e.limits == LIMIT_RANGE_LIMITS;
  }

  lemma DesktopTaken(space: Space, container: Container)
    requires DesktopBlock(space.workspaceResources, container.requirements)
    ensures Taken(CONTAINER_DEFAULTS, container) <==> DesktopWithin(Given(space.workspaceResources))
  {
    WorkspaceFits(space.workspaceResources, container.requirements);
  }

  lemma ChallengeTaken(svc: LabService, container: Container)
    requires ServiceBlock(svc.resources, container.requirements)
    ensures Taken(CONTAINER_DEFAULTS, container) <==> ServiceWithin(svc.resources)
  {
    ServiceFits(svc.resources, container.requirements);
  }

  lemma FirstDecides(defaults: Requirements, p: Pod)
    requires |p.containers| > 0 && forall i :: 0 < i < |p.containers| ==> Taken(defaults, p.containers[i])
    ensures PodFits(defaults, p) <==> Taken(defaults, p.containers[0])
  {
  }

  lemma DesktopAdmitted(k: string, space: Space, p: Pod)
    requires IsDesktop(k, space, p)
    ensures PodFits(CONTAINER_DEFAULTS, p) <==> DesktopWithin(Given(space.workspaceResources))
  {
    forall i | 0 < i < |p.containers| ensures Taken(CONTAINER_DEFAULTS, p.containers[i]) {
      GuardTaken(p.containers[i].name);
      BareContainerTaken(p.containers[i].name);
      assert p.containers[1] == Container("workspace-guard", GUARD);
    }
    FirstDecides(CONTAINER_DEFAULTS, p);
    DesktopTaken(space, p.containers[0]);
  }

  lemma ChallengeAdmitted(k: string, svc: LabService, p: Pod)
    requires IsChallenge(k, svc, p)
    ensures PodFits(CONTAINER_DEFAULTS, p) <==> ServiceWithin(svc.resources)
  {
    FirstDecides(CONTAINER_DEFAULTS, p);
    ChallengeTaken(svc, p.containers[0]);
  }

  lemma AnyPodDeclares(p: Pod)
    ensures PodDeclares(CONTAINER_DEFAULTS, p)
  {
    forall i | 0 <= i < |p.containers| ensures Declares(Effective(CONTAINER_DEFAULTS, p.containers[i].requirements)) {
      EveryContainerDeclares(None, p.containers[i].requirements);
    }
  }

  /** The limit range in the namespace fills the containers of a pod so that all counters of
      the quota are declared, and what each made pod needs to be taken is up to the author. */
  predicate AdmittedUnder(k: string, space: Space, svcs: seq<LabService>, defaults: Requirements, p: Pod) {
    && PodDeclares(defaults, p)
    && (IsDesktop(k, space, p) ==> (PodFits(defaults, p) <==> DesktopWithin(Given(space.workspaceResources))))
    && (forall s :: s in svcs && IsChallenge(k, s, p) ==> (PodFits(defaults, p) <==> ServiceWithin(s.resources)))
  }

  /** After a successful reconcile of a space with resources, under the limit range that is
      stored: every container of every pod declares all counters, the desktop fits exactly when
      the author's desktop lists suit the defaults, and a challenge exactly when its author's
      requests stay within the limits in force. */
  lemma WorkloadAdmitted(cfg: Config, k: string, c: Cluster, turns: nat -> Turn, i: nat)
    requires Quiet(turns) && Live(c, k) && DistinctNames(c.services) && Capped(SpaceOf(c, k).resources)
    requires Succeeded(Drive(cfg, k, Begin, c, turns, 0).0)
    requires i < |PodsAt(Once(cfg, k, c, turns), k)|
    ensures var d := Once(cfg, k, c, turns);
      && LIMIT_RANGE in ObjectsAt(d, k) && ObjectsAt(d, k)[LIMIT_RANGE].body.LimitRangeBody?
      && AdmittedUnder(k, SpaceOf(c, k), ServicesOf(cfg, c, k), ObjectsAt(d, k)[LIMIT_RANGE].body.defaults,
                       PodsAt(d, k)[i])
  {
    var s, space, svcs := c.sessions[k], SpaceOf(c, k), ServicesOf(cfg, c, k);
    var p := PodsAt(Once(cfg, k, c, turns), k)[i];
    CalmReconcile(cfg, k, c, turns);
    QuotaAfterPlan(cfg, k, s.userId, space, svcs, s.uid, ObjectsAt(c, k));
    AnyPodDeclares(p);
    if IsDesktop(k, space, p) {
      DesktopAdmitted(k, space, p);
    }
    forall t | t in svcs && IsChallenge(k, t, p)
      ensures PodFits(CONTAINER_DEFAULTS, p) <==> ServiceWithin(t.resources)
    {
      ChallengeAdmitted(k, t, p);
    }
  }
}
