/**
 * The session reconciler as the code runs it: methods that call a shared API server and
 * update the session in hand, proved to do exactly what the protocol's big step says.
 */
module Reconciler {
  import opened Common
  import opened Egress
  import opened Resources
  import opened Names
  import opened Objects
  import opened Phases
  import opened Actions
  import opened Plans
  import opened StatusSync
  import opened Protocol
  import opened ApiCalls

  // ------------------------------------------------------------------ the API server

  /** The store behind the client; turn i says what happens around the i-th call. */
  class ApiServer {
    var cluster: Cluster
    var calls: nat
    const cfg: Config
    const turns: nat -> Turn

    constructor (cfg: Config, cluster: Cluster, turns: nat -> Turn)
      ensures this.cfg == cfg && this.cluster == cluster && this.turns == turns && calls == 0
    {
      this.cfg, this.cluster, this.turns, this.calls := cfg, cluster, turns, 0;
    }

    /** The store as the next call finds it. */
    function Ahead(): Cluster
      reads this
    {
      EnvRun(cluster, turns(calls).env)
    }

    function Fate(): Outcome
      reads this
    {
      turns(calls).outcome
    }

    /** The rest of a reconcile that stands at l. */
    function Rest(k: string, l: Local): (Local, Cluster, nat)
      reads this
    {
      Drive(cfg, k, l, cluster, turns, calls)
    }

    /** What a stretch of namespace calls does from here. */
    function Stretch(k: string, acts: seq<Action>, who: Birth): (Cluster, nat, bool)
      reads this
    {
      RunActs(k, acts, who, cluster, turns, calls)
    }

    method Get(k: string) returns (r: Reply<Session>)
      modifies this
      ensures (r, cluster, calls) == (GetSession(old(Ahead()), k, old(Fate())), old(Ahead()), old(calls) + 1)
    {
      r := GetSession(Ahead(), k, Fate());
      cluster, calls := Ahead(), calls + 1;
    }

    method Update(k: string, s: Session) returns (r: Reply<Session>)
      modifies this
      ensures calls == old(calls) + 1 && (cluster, r) == UpdateSession(old(Ahead()), k, s, old(Fate()))
    {
      var (c, reply) := UpdateSession(Ahead(), k, s, Fate());
      cluster, calls, r := c, calls + 1, reply;
    }

    /** An update that drops the finalizer; keeps the history of failed namespace deletes. */
    method Release(k: string, s: Session, deleteFailed: bool) returns (r: Reply<Session>)
      modifies this
      ensures calls == old(calls) + 1
      ensures var (c, reply) := UpdateSession(old(Ahead()), k, s, old(Fate()));
        r == reply && cluster == if deleteFailed && c != old(Ahead()) then c.(leaked := c.leaked + {s.uid}) else c
    {
      var before := Ahead();
      var (c, reply) := UpdateSession(before, k, s, Fate());
      r, calls := reply, calls + 1;
      cluster := if deleteFailed && c != before then c.(leaked := c.leaked + {s.uid}) else c;
    }

    method WriteStatus(k: string, s: Session) returns (r: Reply<Session>)
      modifies this
      ensures calls == old(calls) + 1 && (cluster, r) == UpdateStatus(old(Ahead()), k, s, old(Fate()))
    {
      var (c, reply) := UpdateStatus(Ahead(), k, s, Fate());
      cluster, calls, r := c, calls + 1, reply;
    }

    method Delete(k: string) returns (ok: bool)
      modifies this
      ensures calls == old(calls) + 1 && (cluster, ok) == DeleteSession(old(Ahead()), k, old(Fate()))
    {
      var (c, done) := DeleteSession(Ahead(), k, Fate());
      cluster, calls, ok := c, calls + 1, done;
    }

    method DeleteLabNamespace(k: string) returns (ok: bool)
      modifies this
      ensures calls == old(calls) + 1 && (cluster, ok) == DeleteNamespace(old(Ahead()), k, old(Fate()))
    {
      var (c, done) := DeleteNamespace(Ahead(), k, Fate());
      cluster, calls, ok := c, calls + 1, done;
    }

    method GetLabSpace(name: string) returns (r: Reply<Space>)
      modifies this
      ensures (r, cluster, calls) == (GetSpace(old(Ahead()), name, old(Fate())), old(Ahead()), old(calls) + 1)
    {
      r := GetSpace(Ahead(), name, Fate());
      cluster, calls := Ahead(), calls + 1;
    }

    method ListLabServices(selector: string) returns (r: Reply<seq<LabService>>)
      modifies this
      ensures (r, cluster, calls)
        == (ListServices(old(Ahead()), cfg, selector, old(Fate())), old(Ahead()), old(calls) + 1)
    {
      r := ListServices(Ahead(), cfg, selector, Fate());
      cluster, calls := Ahead(), calls + 1;
    }

    method ListSessionPods(k: string) returns (r: Reply<seq<Pod>>)
      modifies this
      ensures (r, cluster, calls) == (ListPods(old(Ahead()), k, old(Fate())), old(Ahead()), old(calls) + 1)
    {
      r := ListPods(Ahead(), k, Fate());
      cluster, calls := Ahead(), calls + 1;
    }

    method DeleteSessionPod(k: string, name: string) returns (ok: bool)
      modifies this
      ensures calls == old(calls) + 1 && (cluster, ok) == DeletePod(old(Ahead()), k, name, old(Fate()))
    {
      var (c, done) := DeletePod(Ahead(), k, name, Fate());
      cluster, calls, ok := c, calls + 1, done;
    }

    /** One create-or-update, delete or create-if-absent in the session's namespace. */
    method Call(k: string, a: Action, who: Birth) returns (ok: bool)
      modifies this
      ensures (cluster, calls, ok) == old(Stretch(k, [a], who))
    {
      RunOne(k, a, who, cluster, turns, calls);
      var (c, done) := Act(Ahead(), k, a, who, Fate());
      cluster, calls, ok := c, calls + 1, done;
    }
  }

  // --------------------------------------------------------------- the session in hand

  /** The decoded session, which the reconciler edits before it writes it. */
  class SessionObject {
    var read: Session
    var finalizer: bool
    var handled: string
    var phase: Phase
    var message: Message
    var namespace: string
    var endpoints: seq<Endpoint>
    var startTime: Option<int>
    var expiredTime: Option<int>

    constructor (s: Session)
      ensures Value() == s
    {
      read, finalizer, handled := s, s.finalizer, s.handled;
      phase, message, namespace, endpoints := s.status.phase, s.status.message, s.status.namespace, s.status.endpoints;
      startTime, expiredTime := s.status.startTime, s.status.expiredTime;
    }

    function StatusValue(): Status
      reads this
    {
      Status(phase, message, namespace, endpoints, startTime, expiredTime)
    }

    function Value(): Session
      reads this
    {
      read.(finalizer := finalizer, handled := handled, status := StatusValue())
    }

    /** A successful write decodes the server's answer into the object. */
    method Load(s: Session)
      modifies this
      ensures Value() == s
    {
      read, finalizer, handled := s, s.finalizer, s.handled;
      phase, message, namespace, endpoints := s.status.phase, s.status.message, s.status.namespace, s.status.endpoints;
      startTime, expiredTime := s.status.startTime, s.status.expiredTime;
    }
  }

  // ------------------------------------------------------------------- infrastructure

  method EnsureResourceQuota(api: ApiServer, k: string, space: Space, who: Birth) returns (ok: bool)
    modifies api
    ensures (api.cluster, api.calls, ok) == old(api.Stretch(k, QuotaActions(space), who))
  {
    var hard := BuildHard(space.resources);
    QuotaHardRoundTrip(space.resources);
    if |hard| == 0 {
      return true;
    }
    ok := api.Call(k, Put(QUOTA, Unowned, QuotaBody(hard)), who);
  }

  method EnsureLimitRange(api: ApiServer, k: string, space: Space, who: Birth) returns (ok: bool)
    modifies api
    ensures (api.cluster, api.calls, ok) == old(api.Stretch(k, LimitRangeActions(space), who))
  {
    if |space.resources.requests| == 0 && |space.resources.limits| == 0 {
      return true;
    }
    ok := api.Call(k, LimitRangeAction(), who);
  }

  method EnsurePullSecret(api: ApiServer, k: string, who: Birth) returns (ok: bool)
    modifies api
    ensures (api.cluster, api.calls, ok) == old(api.Stretch(k, PullSecretActions(api.cfg), who))
  {
    if api.cfg.pullConfig == "" {
      return true;
    }
    ok := api.Call(k, Put(PULL_SECRET, OnCreate, SecretBody(api.cfg.pullConfig)), who);
  }

  method EnsureBaselinePolicy(api: ApiServer, k: string, space: Space, who: Birth) returns (ok: bool)
    modifies api
    ensures (api.cluster, api.calls, ok) == old(api.Stretch(k, [Drop(LEGACY_POLICY), BaselineAction(space)], who))
  {
    RunActsConcat(k, [Drop(LEGACY_POLICY)], [BaselineAction(space)], who, api.cluster, api.turns, api.calls);
    assert [Drop(LEGACY_POLICY)] + [BaselineAction(space)] == [Drop(LEGACY_POLICY), BaselineAction(space)];
    ok := api.Call(k, Drop(LEGACY_POLICY), who);
    if !ok {
      return;
    }
    var egress := [SAME_NAMESPACE_RULE, DNS_RULE, MONITORING_RULE];
    if space.allowInternet {
      egress := egress + [WORLD_RULE];
    }
    assert Policy(map[], [SAME_NAMESPACE_RULE, GATEWAY_RULE], egress) == BaselinePolicy(space.allowInternet);
    ok := api.Call(k, Put(BASELINE, Controlled, PolicyBody(Policy(map[], [SAME_NAMESPACE_RULE, GATEWAY_RULE], egress))),
                   who);
  }

  /** Everything up to and including network isolation, stopping at the first failure. */
  method EnsureInfrastructure(api: ApiServer, k: string, space: Space, who: Birth) returns (ok: bool)
    modifies api
    ensures (api.cluster, api.calls, ok) == old(api.Stretch(k, SetupPlan(api.cfg, space), who))
  {
    ghost var c, t, i := api.cluster, api.turns, api.calls;
    ghost var p0, p1 := [EnsureNamespace], PullSecretActions(api.cfg);
    ghost var p2, p3 := QuotaActions(space), LimitRangeActions(space);
    RunActsConcat(k, p0, p1, who, c, t, i);
    RunActsConcat(k, p0 + p1, p2, who, c, t, i);
    RunActsConcat(k, p0 + p1 + p2, p3, who, c, t, i);
    RunActsConcat(k, p0 + p1 + p2 + p3, [Drop(LEGACY_POLICY), BaselineAction(space)], who, c, t, i);
    ok := api.Call(k, EnsureNamespace, who);
    if !ok {
      return;
    }
    ok := EnsurePullSecret(api, k, who);
    if !ok {
      return;
    }
    ok := EnsureResourceQuota(api, k, space, who);
    if !ok {
      return;
    }
    ok := EnsureLimitRange(api, k, space, who);
    if !ok {
      return;
    }
    ok := EnsureBaselinePolicy(api, k, space, who);
  }

  // ------------------------------------------------------------------- the workspace

  /** The lists as the decoded template holds them. */
  method Decoded(r: Requirements) returns (lists: AuthorLists)
    ensures RequirementsOf(lists) == r && lists.requests != null && lists.limits != null
    ensures fresh(lists.requests) && fresh(lists.limits) && lists.requests != lists.limits
  {
    var requests := new QuantityMap(r.requests);
    var limits := new QuantityMap(r.limits);
    lists := AuthorLists(requests, limits);
  }

  method BuildWorkspaceContainers(space: Space) returns (containers: seq<Container>)
    ensures containers == WorkspaceContainers(space)
    ensures DesktopContainers(space, containers)
  {
    var author: Option<AuthorLists> := None;
    if space.workspaceResources.Some? {
      var lists := Decoded(space.workspaceResources.value);
      author := Some(lists);
    }
    var requests, limits := WorkspaceResources(author);
    containers := [Container("interface", Requirements(requests.items, limits.items)),
                   Container("workspace-guard", GUARD)];
    if space.workspaceType == "Termnial" {
      containers := containers + [Container("checker", Requirements(map[], map[]))];
    }
  }

  method ReconcileWorkspace(api: ApiServer, k: string, space: Space, who: Birth) returns (ok: bool)
    modifies api
    ensures (api.cluster, api.calls, ok)
         == old(api.Stretch(k, [ListTasks(api.cfg.validSelector(space.selector)), CreatePod(WorkspacePod(k, space))]
                               + [WorkspaceServiceAction(k)], who))
  {
    ghost var c, t, i := api.cluster, api.turns, api.calls;
    var list, create := ListTasks(api.cfg.validSelector(space.selector)), CreatePod(WorkspacePod(k, space));
    RunActsConcat(k, [list], [create], who, c, t, i);
    assert [list] + [create] == [list, create];
    RunActsConcat(k, [list, create], [WorkspaceServiceAction(k)], who, c, t, i);
    ok := api.Call(k, list, who);
    if !ok {
      return;
    }
    var containers := BuildWorkspaceContainers(space);
    ok := api.Call(k, CreatePod(PodTemplate(WorkspaceName(k), WorkspaceLabels(k), containers, true, false)), who);
    if !ok {
      return;
    }
    ok := api.Call(k, WorkspaceServiceAction(k), who);
  }

  // -------------------------------------------------------------------- the services

  method EnsureServiceEgressPolicy(api: ApiServer, k: string, svc: LabService, who: Birth) returns (ok: bool)
    modifies api
    ensures (api.cluster, api.calls, ok) == old(api.Stretch(k, [EgressAction(svc)], who))
  {
    if |svc.egress| == 0 {
      ok := api.Call(k, Drop(EgressKey(svc.name)), who);
      return;
    }
    var egress := RenderServiceRules(svc.egress);
    ok := api.Call(k, Put(EgressKey(svc.name), Controlled,
                          PolicyBody(Policy(map[SERVICE_LABEL := svc.name], [], egress))), who);
  }

  method EnsureService(api: ApiServer, k: string, svc: LabService, who: Birth) returns (ok: bool)
    modifies api
    ensures (api.cluster, api.calls, ok) == old(api.Stretch(k, [ServiceAction(svc)], who))
  {
    var ports: seq<Port> := [];
    for i := 0 to |svc.ports|
      invariant ports == svc.ports[..i]
    {
      ports := ports + [Port(svc.ports[i].name, svc.ports[i].number)];
    }
    assert ports == svc.ports;
    ok := api.Call(k, Put(Key(KService, svc.name), Unowned,
                          ServiceBody(map["app" := svc.name], map["app" := svc.name], ports)), who);
  }

  method ReconcileServiceResources(api: ApiServer, k: string, svc: LabService, who: Birth) returns (ok: bool)
    modifies api
    ensures (api.cluster, api.calls, ok)
         == old(api.Stretch(k, [CreatePod(ServicePod(k, svc))] + [EgressAction(svc)] + [ServiceAction(svc)], who))
  {
    ghost var c, t, i := api.cluster, api.turns, api.calls;
    RunActsConcat(k, [CreatePod(ServicePod(k, svc))], [EgressAction(svc)], who, c, t, i);
    RunActsConcat(k, [CreatePod(ServicePod(k, svc))] + [EgressAction(svc)], [ServiceAction(svc)], who, c, t, i);
    var lists := Decoded(svc.resources);
    var requests, limits := ServiceResources(lists);
    var challenge := Container("challenge", Requirements(ItemsOf(requests), limits.items));
    ok := api.Call(k, CreatePod(PodTemplate(svc.name, ServiceLabels(k, svc), [challenge], false, svc.random)), who);
    if !ok {
      return;
    }
    ok := EnsureServiceEgressPolicy(api, k, svc, who);
    if !ok {
      return;
    }
    ok := EnsureService(api, k, svc, who);
  }

  /** Only called for spaces that are not internal-only. A service without ports makes the
      code index an empty list. */
  method ReconcileRoute(api: ApiServer, k: string, userId: string, space: Space, svc: LabService,
                        who: Birth) returns (ok: bool)
    requires !space.internalOnly
    modifies api
    ensures (api.cluster, api.calls, ok) == old(api.Stretch(k, RouteActions(api.cfg, userId, space, svc), who))
  {
    if svc.exposure.None? || svc.exposure.value != "HTTP" {
      return true;
    }
    if |svc.ports| == 0 {
      ok := api.Call(k, PortPanic, who);
      return;
    }
    var hostname := ServiceHostname(svc.name, userId, api.cfg.Domain());
    ok := api.Call(k, Put(Key(KRoute, svc.name), Unowned, RouteBody([hostname], svc.name, svc.ports[0].number)), who);
  }

  lemma OneService(cfg: Config, k: string, userId: string, space: Space, svc: LabService)
    ensures AllServiceActions(cfg, k, userId, space, [svc])
         == ([CreatePod(ServicePod(k, svc))] + [EgressAction(svc)] + [ServiceAction(svc)])
           + RouteActions(cfg, userId, space, svc)
  {
    assert [svc][1..] == [];
  }

  method ReconcileOneService(api: ApiServer, k: string, userId: string, space: Space, svc: LabService,
                             who: Birth) returns (ok: bool)
    modifies api
    ensures (api.cluster, api.calls, ok)
      == old(api.Stretch(k, AllServiceActions(api.cfg, k, userId, space, [svc]), who))
  {
    OneService(api.cfg, k, userId, space, svc);
    RunActsConcat(k, [CreatePod(ServicePod(k, svc))] + [EgressAction(svc)] + [ServiceAction(svc)],
                  RouteActions(api.cfg, userId, space, svc), who, api.cluster, api.turns, api.calls);
    ok := ReconcileServiceResources(api, k, svc, who);
    if ok && !space.internalOnly {
      ok := ReconcileRoute(api, k, userId, space, svc, who);
    }
  }

  lemma OneMoreService(cfg: Config, k: string, userId: string, space: Space, svcs: seq<LabService>, i: nat, who: Birth,
                       c: Cluster, turns: nat -> Turn, n: nat)
    requires i < |svcs|
    ensures var (c1, n1, ok) := RunActs(k, AllServiceActions(cfg, k, userId, space, svcs[..i]), who, c, turns, n);
      RunActs(k, AllServiceActions(cfg, k, userId, space, svcs[..i + 1]), who, c, turns, n)
      == if ok then RunActs(k, AllServiceActions(cfg, k, userId, space, [svcs[i]]), who, c1, turns, n1)
        else (c1, n1, false)
  {
    assert svcs[..i + 1] == svcs[..i] + [svcs[i]];
    AllServiceActionsConcat(cfg, k, userId, space, svcs[..i], [svcs[i]]);
    RunActsConcat(k, AllServiceActions(cfg, k, userId, space, svcs[..i]),
                  AllServiceActions(cfg, k, userId, space, [svcs[i]]), who, c, turns, n);
  }

  lemma RestSkipped(cfg: Config, k: string, userId: string, space: Space, svcs: seq<LabService>, i: nat, who: Birth,
                    c: Cluster, turns: nat -> Turn, n: nat)
    requires i <= |svcs|
    requires !RunActs(k, AllServiceActions(cfg, k, userId, space, svcs[..i]), who, c, turns, n).2
    ensures RunActs(k, AllServiceActions(cfg, k, userId, space, svcs), who, c, turns, n)
         == RunActs(k, AllServiceActions(cfg, k, userId, space, svcs[..i]), who, c, turns, n)
  {
    assert svcs == svcs[..i] + svcs[i..];
    AllServiceActionsConcat(cfg, k, userId, space, svcs[..i], svcs[i..]);
    RunActsConcat(k, AllServiceActions(cfg, k, userId, space, svcs[..i]),
                  AllServiceActions(cfg, k, userId, space, svcs[i..]), who, c, turns, n);
  }

  /** The discovery loop: every selected service in list order, up to the first failure. */
  method ReconcileServices(api: ApiServer, k: string, userId: string, space: Space, svcs: seq<LabService>, who: Birth)
    returns (ok: bool)
    modifies api
    ensures (api.cluster, api.calls, ok) == old(api.Stretch(k, AllServiceActions(api.cfg, k, userId, space, svcs), who))
  {
    ghost var c, t, n := api.cluster, api.turns, api.calls;
    for i := 0 to |svcs|
      invariant (api.cluster, api.calls, true)
        == RunActs(k, AllServiceActions(api.cfg, k, userId, space, svcs[..i]), who, c, t, n)
    {
      OneMoreService(api.cfg, k, userId, space, svcs, i, who, c, t, n);
      ok := ReconcileOneService(api, k, userId, space, svcs[i], who);
      if !ok {
        RestSkipped(api.cfg, k, userId, space, svcs, i + 1, who, c, t, n);
        return;
      }
    }
    assert svcs[..|svcs|] == svcs;
    return true;
  }

  /** Discovery, the workspace and the services. */
  method ReconcileWork(api: ApiServer, k: string, userId: string, space: Space, svcs: seq<LabService>,
                       who: Birth) returns (ok: bool)
    modifies api
    ensures (api.cluster, api.calls, ok) == old(api.Stretch(k, WorkPlan(api.cfg, k, userId, space, svcs), who))
  {
    ghost var c, t, i := api.cluster, api.turns, api.calls;
    ghost var desktop := [ListTasks(api.cfg.validSelector(space.selector)), CreatePod(WorkspacePod(k, space))]
      + [WorkspaceServiceAction(k)];
    RunActsConcat(k, desktop, [WorkspaceRouteAction(api.cfg, k)], who, c, t, i);
    assert desktop + [WorkspaceRouteAction(api.cfg, k)] == WorkspaceActions(api.cfg, k, space);
    RunActsConcat(k, WorkspaceActions(api.cfg, k, space), AllServiceActions(api.cfg, k, userId, space, svcs), who, c, t,
                  i);
    ok := ReconcileWorkspace(api, k, space, who);
    if !ok {
      return;
    }
    var hostname := WorkspaceHostname(k, api.cfg.Domain());
    ok := api.Call(k, Put(Key(KRoute, WorkspaceRouteName(k)), Controlled,
                          RouteBody([hostname], WorkspaceName(k), GUARD_PORT)), who);
    if !ok {
      return;
    }
    ok := ReconcileServices(api, k, userId, space, svcs, who);
  }

  // --------------------------------------------------------------------- restarts

  lemma LiveNamesNext(pods: seq<Pod>, i: nat)
    requires i < |pods|
    ensures LiveNames(pods[..i + 1]) == LiveNames(pods[..i]) + (if pods[i].terminating then [] else [pods[i].name])
  {
    assert pods[..i + 1][..i] == pods[..i];
  }

  lemma DeleteOne(k: string, name: string, c: Cluster, turns: nat -> Turn, i: nat, failed: set<string>)
    ensures var (c', ok) := DeletePod(EnvRun(c, turns(i).env), k, name, turns(i).outcome);
      RunDeletes(k, [name], c, turns, i, failed) == (c', i + 1, if ok then failed else failed + {name})
  {
    assert [name][1..] == [];
  }

  /** Deletes the listed pods that are not terminating yet; failed deletes are ignored. */
  method DeleteListedPods(api: ApiServer, k: string, pods: seq<Pod>) returns (ghost failed: set<string>)
    modifies api
    ensures (api.cluster, api.calls, failed)
      == old(RunDeletes(k, LiveNames(pods), api.cluster, api.turns, api.calls, {}))
  {
    failed := {};
    ghost var c, t, n := api.cluster, api.turns, api.calls;
    for i := 0 to |pods|
      invariant (api.cluster, api.calls, failed) == RunDeletes(k, LiveNames(pods[..i]), c, t, n, {})
    {
      LiveNamesNext(pods, i);
      if !pods[i].terminating {
        RunDeletesConcat(k, LiveNames(pods[..i]), [pods[i].name], c, t, n, {});
        DeleteOne(k, pods[i].name, api.cluster, t, api.calls, failed);
        var ok := api.DeleteSessionPod(k, pods[i].name);
        failed := if ok then failed else failed + {pods[i].name};
      } else {
        assert LiveNames(pods[..i]) + [] == LiveNames(pods[..i]);
      }
    }
    assert pods[..|pods|] == pods;
  }

  /** Records the request as handled and takes over the server's answer. */
  method MarkRestartHandled(api: ApiServer, session: SessionObject, k: string,
                            ghost failed: set<string>) returns (ok: bool)
    modifies api, session
    ensures old(api.Rest(k, MarkHandled(session.Value(), failed)))
         == if ok then api.Rest(k, RestartStatus(session.Value())) else (Idle(Error), api.cluster, api.calls)
  {
    MarkUnfold(api.cfg, k, session.Value(), failed, api.cluster, api.turns, api.calls);
    session.handled := session.read.requested;
    var reply := api.Update(k, session.Value());
    if !reply.Got? {
      return false;
    }
    session.Load(reply.value);
    return true;
  }

  /** No restart wanted: nothing happens. Otherwise the listed pods are deleted and the
      request is recorded as handled, or the reconcile ends with an error. */
  method MaybeRestart(api: ApiServer, session: SessionObject, k: string) returns (restarted: bool, ok: bool)
    modifies api, session
    ensures restarted ==> ok
    ensures !old(RestartPending(session.Value())) ==>
      ok && !restarted && api.cluster == old(api.cluster) && api.calls == old(api.calls)
        && session.Value() == old(session.Value())
    ensures old(RestartPending(session.Value())) ==>
      && (ok <==> restarted)
      && old(api.Rest(k, ListForRestart(session.Value())))
         == if ok then api.Rest(k, RestartStatus(session.Value())) else (Idle(Error), api.cluster, api.calls)
  {
    var requested := session.read.requested;
    if requested == "" || requested == session.handled {
      return false, true;
    }
    RestartUnfold(api.cfg, k, session.Value(), api.cluster, api.turns, api.calls);
    var pods := api.ListSessionPods(k);
    if !pods.Got? {
      return false, false;
    }

    ghost var failed := DeleteListedPods(api, k, pods.value);
    ok := MarkRestartHandled(api, session, k, failed);
    restarted := ok;
  }

  // ------------------------------------------------------------------- status pass

  method PublishedEndpoints(cfg: Config, k: string, userId: string, space: Space,
                            svcs: seq<LabService>) returns (endpoints: seq<Endpoint>)
    ensures endpoints == DesiredEndpoints(cfg, k, userId, space, svcs)
    ensures Publishes(cfg, k, userId, space, svcs, endpoints)
  {
    DesiredPublishes(cfg, k, userId, space, svcs);
    var workspaceType := "Terminal";
    if space.workspaceType == "VNC" {
      workspaceType := "VNC";
    }
    endpoints := [Endpoint("workspace", workspaceType, Address(cfg, WorkspaceHostname(k, cfg.Domain())))];
    if !space.internalOnly {
      ghost var first := endpoints;
      for i := 0 to |svcs|
        invariant endpoints == first + ServiceEndpoints(cfg, userId, svcs[..i])
      {
        assert svcs[..i + 1][..i] == svcs[..i];
        if svcs[i].exposure.Some? {
          var addr := Address(cfg, ServiceHostname(svcs[i].name, userId, cfg.Domain()));
          endpoints := endpoints + [Endpoint(svcs[i].name, svcs[i].exposure.value, addr)];
        }
      }
      assert svcs[..|svcs|] == svcs;
    }
  }

  /** Sets the timers of a session that has none. */
  method InitTimers(cfg: Config, session: SessionObject, space: Space, now: int) returns (changed: bool)
    modifies session
    ensures session.Value() == old(session.Value()).(status := WithTimers(cfg, old(session.StatusValue()), space, now))
    ensures changed == old(session.startTime).None?
  {
    changed := false;
    if session.startTime == None {
      session.startTime := Some(now);
      var ttl := HOUR;
      if cfg.parseDuration(space.defaultTtl).Some? {
        ttl := cfg.parseDuration(space.defaultTtl).value;
      }
      session.expiredTime := Some(now + ttl);
      session.phase := Pending;
      changed := true;
    }
  }

  method TakeVerdict(session: SessionObject, pods: seq<Pod>) returns (changed: bool)
    modifies session
    ensures var verdict, before := ComputePhase(pods), old(session.StatusValue());
      && session.Value() == old(session.Value()).(status := before.(phase := verdict.phase, message := verdict.message))
      && changed == (before.phase != verdict.phase || before.message != verdict.message)
  {
    var verdict := ComputePhase(pods);
    changed := session.phase != verdict.phase || session.message != verdict.message;
    if changed {
      session.phase := verdict.phase;
      session.message := verdict.message;
    }
  }

  /** The endpoints in hand are replaced only when their number is not the wanted one. */
  method TakeEndpoints(cfg: Config, session: SessionObject, k: string, svcs: seq<LabService>,
                       space: Space) returns (changed: bool)
    modifies session
    ensures var wanted := DesiredEndpoints(cfg, k, old(session.read.userId), space, svcs);
      var before := old(session.StatusValue());
      && changed == (|before.endpoints| != |wanted|)
      && session.Value() == old(session.Value()).(status :=
           before.(namespace := NamespaceOf(k), endpoints := if changed then wanted else before.endpoints))
  {
    session.namespace := NamespaceOf(k);
    var endpoints := PublishedEndpoints(cfg, k, session.read.userId, space, svcs);
    changed := |session.endpoints| != |endpoints|;
    if changed {
      session.endpoints := endpoints;
    }
  }

  /** Brings the status in hand up to date with the listed pods. */
  method RefreshStatus(cfg: Config, session: SessionObject, k: string, svcs: seq<LabService>, space: Space,
                       pods: seq<Pod>, now: int)
    returns (changed: bool)
    modifies session
    ensures var (status, write) := Synced(cfg, k, old(session.read.userId), old(session.StatusValue()), space, svcs,
                                          pods, now);
      changed == write && session.Value() == old(session.Value()).(status := status)
  {
    var first := InitTimers(cfg, session, space, now);
    var second := TakeVerdict(session, pods);
    var third := TakeEndpoints(cfg, session, k, svcs, space);
    changed := first || second || third;
  }

  method RequeueDelay(session: SessionObject, now: int) returns (delay: int)
    ensures delay == Requeue(session.StatusValue(), now)
    ensures var status := session.StatusValue();
      var most := if status.phase == Running then 60 * SECOND else 2 * SECOND;
      if DueWithin(status, now, most) then now + delay == status.expiredTime.value else delay == most
  {
    delay := 2 * SECOND;
    if session.phase == Running {
      delay := MINUTE;
    }
    if session.expiredTime.Some? {
      var rem := session.expiredTime.value - now;
      if rem > 0 && rem < delay {
        delay := rem;
      }
    }
  }

  method WriteAndRequeue(api: ApiServer, session: SessionObject, k: string) returns (res: Result)
    modifies api, session
    ensures old(api.Rest(k, WriteStatus(session.Value()))) == (Idle(res), api.cluster, api.calls)
  {
    WriteUnfold(api.cfg, k, session.Value(), api.cluster, api.turns, api.calls);
    var reply := api.WriteStatus(k, session.Value());
    if !reply.Got? {
      return Error;
    }
    session.Load(reply.value);
    var delay := RequeueDelay(session, api.cluster.clock);
    return After(delay);
  }

  /** Lists the pods, refreshes the status, writes it when something changed, and asks to
      be run again. */
  method SyncStatus(api: ApiServer, session: SessionObject, k: string, svcs: seq<LabService>,
                    space: Space) returns (res: Result)
    modifies api, session
    ensures old(api.Rest(k, ListForStatus(session.Value(), space, svcs, api.cluster.clock)))
      == (Idle(res), api.cluster, api.calls)
  {
    var now := api.cluster.clock;
    StatusUnfold(api.cfg, k, session.Value(), space, svcs, now, api.cluster, api.turns, api.calls);
    var pods := api.ListSessionPods(k);
    if !pods.Got? {
      return Error;
    }
    var changed := RefreshStatus(api.cfg, session, k, svcs, space, pods.value, now);
    if changed {
      res := WriteAndRequeue(api, session, k);
    } else {
      var delay := RequeueDelay(session, api.cluster.clock);
      res := After(delay);
    }
  }

  // --------------------------------------------------------------------- reconcile

  /** The namespace goes first, then the finalizer; a failed namespace delete is ignored. */
  method FinishDeletion(api: ApiServer, session: SessionObject, k: string) returns (res: Result)
    modifies api, session
    ensures old(api.Rest(k, Cleanup(session.Value()))) == (Idle(res), api.cluster, api.calls)
  {
    ghost var s := session.Value();
    Unfold(api.cfg, k, Cleanup(s), api.cluster, api.turns, api.calls);
    var gone := api.DeleteLabNamespace(k);
    LastCallUnfold(api.cfg, k, DropFinalizer(s, !gone), api.cluster, api.turns, api.calls);
    session.finalizer := false;
    var reply := api.Release(k, session.Value(), !gone);
    return if reply.Got? then Stop else Error;
  }

  method AddFinalizer(api: ApiServer, session: SessionObject, k: string) returns (res: Result)
    modifies api, session
    ensures old(api.Rest(k, PutFinalizer(session.Value()))) == (Idle(res), api.cluster, api.calls)
  {
    LastCallUnfold(api.cfg, k, PutFinalizer(session.Value()), api.cluster, api.turns, api.calls);
    session.finalizer := true;
    var reply := api.Update(k, session.Value());
    return if reply.Got? then Stop else Error;
  }

  /** The restart's status write is best effort. */
  method ReportRestart(api: ApiServer, session: SessionObject, k: string) returns (res: Result)
    modifies api, session
    ensures old(api.Rest(k, RestartStatus(session.Value()))) == (Idle(res), api.cluster, api.calls)
  {
    LastCallUnfold(api.cfg, k, RestartStatus(session.Value()), api.cluster, api.turns, api.calls);
    session.phase := Pending;
    session.message := Restarting;
    var ignored := api.WriteStatus(k, session.Value());
    return After(2 * SECOND);
  }

  /** Discovery and everything after it. */
  method ReconcileRunning(api: ApiServer, session: SessionObject, k: string, space: Space) returns (res: Result)
    modifies api, session
    ensures old(api.Rest(k, ListForWork(session.Value(), space))) == (Idle(res), api.cluster, api.calls)
  {
    ghost var s := session.Value();
    ListUnfold(api.cfg, k, s, space, api.cluster, api.turns, api.calls);
    var services := api.ListLabServices(space.selector);
    if !services.Got? {
      return Error;
    }
    var svcs := services.value;
    WorkStretch(api.cfg, k, s, space, svcs, WorkPlan(api.cfg, k, s.userId, space, svcs), api.cluster, api.turns,
                api.calls);
    var ok := ReconcileWork(api, k, session.read.userId, space, svcs, Birth(session.read.uid, Capped(space.resources)));
    if !ok {
      return Error;
    }
    res := SyncStatus(api, session, k, svcs, space);
  }

  /** A session that is neither deleted, nor unfinalized, nor expired. */
  method ReconcileLive(api: ApiServer, session: SessionObject, k: string, space: Space) returns (res: Result)
    modifies api, session
    ensures old(api.Rest(k, SettingUp(api.cfg, session.Value(), space, SetupPlan(api.cfg, space))))
      == (Idle(res), api.cluster, api.calls)
  {
    SetupStretch(api.cfg, k, session.Value(), space, SetupPlan(api.cfg, space), api.cluster, api.turns, api.calls);
    var ok := EnsureInfrastructure(api, k, space, Birth(session.read.uid, Capped(space.resources)));
    if !ok {
      return Error;
    }
    var restarted, marked := MaybeRestart(api, session, k);
    if !marked {
      return Error;
    }
    if restarted {
      res := ReportRestart(api, session, k);
    } else {
      res := ReconcileRunning(api, session, k, space);
    }
  }

  /** From the space on. */
  method ReconcileFinalized(api: ApiServer, session: SessionObject, k: string) returns (res: Result)
    modifies api, session
    ensures old(api.Rest(k, FetchSpace(session.Value()))) == (Idle(res), api.cluster, api.calls)
  {
    ghost var s := session.Value();
    FetchUnfold(api.cfg, k, s, api.cluster, api.turns, api.calls);
    var fetched := api.GetLabSpace(session.read.spaceRef);
    if !fetched.Got? {
      return Error;
    }
    if session.expiredTime.Some? && api.cluster.clock > session.expiredTime.value {
      LastCallUnfold(api.cfg, k, Expire(s), api.cluster, api.turns, api.calls);
      var ok := api.Delete(k);
      return if ok then Stop else Error;
    }
    res := ReconcileLive(api, session, k, fetched.value);
  }

  /** A session that was found. */
  method ReconcileFound(api: ApiServer, session: SessionObject, k: string) returns (res: Result)
    modifies api, session
    ensures old(api.Rest(k, Received(session.Value()))) == (Idle(res), api.cluster, api.calls)
  {
    if session.read.deleting {
      if session.finalizer {
        res := FinishDeletion(api, session, k);
      } else {
        Unfold(api.cfg, k, Idle(Stop), api.cluster, api.turns, api.calls);
        res := Stop;
      }
    } else if !session.finalizer {
      res := AddFinalizer(api, session, k);
    } else {
      res := ReconcileFinalized(api, session, k);
    }
  }

  /** One reconcile of session k: from any store, whatever happens around its calls, it
      makes the calls, leaves the store and returns the result of the protocol. */
  method Reconcile(api: ApiServer, k: string) returns (res: Result)
    modifies api
    ensures (Idle(res), api.cluster, api.calls) == old(api.Rest(k, Begin))
  {
    BeginUnfold(api.cfg, k, api.cluster, api.turns, api.calls);
    var found := api.Get(k);
    if found.Missing? {
      return Stop;
    }
    if found.Fault? {
      return Error;
    }
    var session := new SessionObject(found.value);
    res := ReconcileFound(api, session, k);
  }
}
