/** Published addresses and the routes that serve them. */
module Routes {
  import opened Common
  import opened Egress
  import opened Names
  import opened Objects
  import opened Actions
  import opened Plans
  import opened StatusSync
  import opened Protocol
  import opened Attempts
  import opened Convergence

  function RouteKey(name: string): Key {
    Key(KRoute, name)
  }

  // ------------------------------------------------------------- who writes what

  predicate NamedAfter(space: Space, s: LabService, a: Action) {
    match a
    case Put(key, _, _) =>
      && (key.kind == KService ==> key.name == s.name)
      && (key.kind == KRoute ==> key.name == s.name && Routed(space, s) && s.ports != [])
    case Drop(key) => key.kind == KPolicy
    case _ => true
  }

  lemma {:induction false} WritersNamed(cfg: Config, k: string, userId: string, space: Space, svcs: seq<LabService>)
    ensures forall a :: a in AllServiceActions(cfg, k, userId, space, svcs)
              ==> exists s :: s in svcs && NamedAfter(space, s, a)
    decreases |svcs|
  {
    if svcs != [] {
      var head := ServiceActions(cfg, k, userId, space, svcs[0]);
      var tail := AllServiceActions(cfg, k, userId, space, svcs[1..]);
      WritersNamed(cfg, k, userId, space, svcs[1..]);
      forall a | a in head + tail ensures exists s :: s in svcs && NamedAfter(space, s, a) {
        if a in head {
          assert svcs[0] in svcs && NamedAfter(space, svcs[0], a);
        } else {
          var s :| s in svcs[1..] && NamedAfter(space, s, a);
          assert s in svcs;
        }
      }
    }
  }

  lemma OthersDoNotWrite(cfg: Config, k: string, userId: string, space: Space, svcs: seq<LabService>, key: Key)
    requires key.kind == KService || key.kind == KRoute
    requires forall s :: s in svcs ==> s.name != key.name
    ensures forall a :: a in AllServiceActions(cfg, k, userId, space, svcs) ==> !Writes(a, key)
  {
    WritersNamed(cfg, k, userId, space, svcs);
    forall a | a in AllServiceActions(cfg, k, userId, space, svcs) ensures !Writes(a, key) {
      var s :| s in svcs && NamedAfter(space, s, a);
    }
  }

  // ------------------------------------------------------- what a plan leaves behind

  predicate RoutesTo(objects: map<Key, Obj>, name: string, host: string, backend: string, port: int) {
    RouteKey(name) in objects && objects[RouteKey(name)].body == RouteBody([host], backend, port)
  }

  /** A service object that sends its ports to the pods labelled with its name. */
  predicate Serves(objects: map<Key, Obj>, name: string, ports: seq<Port>) {
    var key := Key(KService, name);
    && key in objects && objects[key].body.ServiceBody?
    && objects[key].body.selector == map["app" := name] && objects[key].body.ports == ports
  }

  lemma ServiceRouteAfterPlan(cfg: Config, k: string, userId: string, space: Space, svcs: seq<LabService>, i: nat,
                              uid: Uid, m: map<Key, Obj>)
    requires i < |svcs| && DistinctNames(svcs) && Routed(space, svcs[i]) && svcs[i].ports != []
    ensures var s := svcs[i];
      RoutesTo(ExecObjects(FullPlan(cfg, k, userId, space, svcs), uid, m),
               s.name, ServiceHostname(s.name, userId, cfg.Domain()), s.name, s.ports[0].number)
  {
    var s := svcs[i];
    var before, after := SplitAtService(cfg, k, userId, space, svcs, i);
    var front := [CreatePod(ServicePod(k, s)), EgressAction(s), ServiceAction(s)];
    var route := RouteActions(cfg, userId, space, s)[0];
    assert ServiceActions(cfg, k, userId, space, s) == front + [route] + [];
    Regroup(before, front, route, [], after);
    assert [] + after == after;
    OthersDoNotWrite(cfg, k, userId, space, svcs[i + 1..], RouteKey(s.name));
    LastWrite(before + front, route, after, uid, m, RouteKey(s.name));
  }

  lemma ServiceCall(cfg: Config, k: string, userId: string, space: Space, s: LabService)
    ensures ServiceActions(cfg, k, userId, space, s)
         == [CreatePod(ServicePod(k, s)), EgressAction(s)] + [ServiceAction(s)] + RouteActions(cfg, userId, space, s)
  {
  }

  lemma RouteActionsKind(cfg: Config, userId: string, space: Space, s: LabService)
    ensures forall a :: a in RouteActions(cfg, userId, space, s) ==> !Writes(a, Key(KService, s.name))
  {
  }

  lemma ServiceEffect(s: LabService, uid: Uid, found: Option<Obj>)
    ensures var o := Effect(ServiceAction(s), uid, Key(KService, s.name), found);
      && o.Some? && o.value.body.ServiceBody?
      && o.value.body.selector == map["app" := s.name] && o.value.body.ports == s.ports
  {
  }

  lemma ServiceAfterPlan(cfg: Config, k: string, userId: string, space: Space, svcs: seq<LabService>, i: nat,
                         uid: Uid, m: map<Key, Obj>)
    requires i < |svcs| && DistinctNames(svcs)
    ensures Serves(ExecObjects(FullPlan(cfg, k, userId, space, svcs), uid, m), svcs[i].name, svcs[i].ports)
  {
    var s, key := svcs[i], Key(KService, svcs[i].name);
    var before, after := SplitAtService(cfg, k, userId, space, svcs, i);
    var front, rest := [CreatePod(ServicePod(k, s)), EgressAction(s)], RouteActions(cfg, userId, space, s);
    ServiceCall(cfg, k, userId, space, s);
    Regroup(before, front, ServiceAction(s), rest, after);
    OthersDoNotWrite(cfg, k, userId, space, svcs[i + 1..], key);
    RouteActionsKind(cfg, userId, space, s);
    LastWrite(before + front, ServiceAction(s), rest + after, uid, m, key);
    ServiceEffect(s, uid, Lookup(ExecObjects(before + front, uid, m), key));
  }

  lemma SetupWritesNoRoute(cfg: Config, space: Space)
    ensures forall a :: a in SetupPlan(cfg, space) && (a.Put? || a.Drop?) ==> a.key.kind != KRoute
  {
  }

  /** Some routed service carries the name of the workspace route, and overwrites it. */
  predicate Rerouted(k: string, space: Space, svcs: seq<LabService>) {
    exists i :: 0 <= i < |svcs| && svcs[i].name == WorkspaceRouteName(k) && Routed(space, svcs[i])
      && svcs[i].ports != []
  }

  /** The workspace host is served by the workspace route exactly when no service took that
      route's name. */
  lemma WorkspaceRouteAfterPlan(cfg: Config, k: string, userId: string, space: Space, svcs: seq<LabService>,
                                uid: Uid, m: map<Key, Obj>)
    requires DistinctNames(svcs)
    ensures RoutesTo(ExecObjects(FullPlan(cfg, k, userId, space, svcs), uid, m),
                     WorkspaceRouteName(k), WorkspaceHostname(k, cfg.Domain()), WorkspaceName(k), GUARD_PORT)
      <==> !Rerouted(k, space, svcs)
  {
    var key := RouteKey(WorkspaceRouteName(k));
    if Rerouted(k, space, svcs) {
      var i :| 0 <= i < |svcs| && svcs[i].name == WorkspaceRouteName(k) && Routed(space, svcs[i])
        && svcs[i].ports != [];
      ServiceRouteAfterPlan(cfg, k, userId, space, svcs, i, uid, m);
      RouteNamesakeHostDiffers(k, userId, cfg.Domain());
    } else {
      var tail := AllServiceActions(cfg, k, userId, space, svcs);
      var before := SetupPlan(cfg, space)
        + [ListTasks(cfg.validSelector(space.selector)), CreatePod(WorkspacePod(k, space)), WorkspaceServiceAction(k)];
      assert FullPlan(cfg, k, userId, space, svcs) == before + [WorkspaceRouteAction(cfg, k)] + tail;
      WritersNamed(cfg, k, userId, space, svcs);
      forall a | a in tail ensures !Writes(a, key) {
        var s :| s in svcs && NamedAfter(space, s, a);
        var i :| 0 <= i < |svcs| && svcs[i] == s;
      }
      LastWrite(before, WorkspaceRouteAction(cfg, k), tail, uid, m, key);
    }
  }

  /** Every exposed service gets an address. A full plan leaves its route if it is exposed
      over HTTP, has a port, and the space is not internal-only; otherwise what is left under
      its name is the workspace route of that name, or whatever was there before: the route
      of an earlier HTTP exposure stays. */
  lemma OnlyHttpRouted(cfg: Config, k: string, userId: string, space: Space, svcs: seq<LabService>, i: nat,
                       uid: Uid, m: map<Key, Obj>)
    requires i < |svcs| && DistinctNames(svcs)
    ensures var s, end := svcs[i], ExecObjects(FullPlan(cfg, k, userId, space, svcs), uid, m);
      if s.exposure == Some("HTTP") && !space.internalOnly && s.ports != [] then
        RoutesTo(end, s.name, ServiceHostname(s.name, userId, cfg.Domain()), s.name, s.ports[0].number)
      else if s.name == WorkspaceRouteName(k) then
        RoutesTo(end, s.name, WorkspaceHostname(k, cfg.Domain()), WorkspaceName(k), GUARD_PORT)
      else
        Lookup(end, RouteKey(s.name)) == Lookup(m, RouteKey(s.name))
    ensures svcs[i].exposure.Some? && !space.internalOnly
      ==> exists e :: e in DesiredEndpoints(cfg, k, userId, space, svcs) && AddressOf(cfg, userId, svcs[i], e)
  {
    var s := svcs[i];
    if s.exposure.Some? {
      OneAddress(cfg, userId, s, ServiceEndpoint(cfg, userId, s));
      ServiceEndpointsOrigin(cfg, userId, svcs, ServiceEndpoint(cfg, userId, s));
    }
    if Routed(space, s) && s.ports != [] {
      ServiceRouteAfterPlan(cfg, k, userId, space, svcs, i, uid, m);
    } else if s.name == WorkspaceRouteName(k) {
      WorkspaceRouteAfterPlan(cfg, k, userId, space, svcs, uid, m);
    } else {
      RouteUntouched(cfg, k, userId, space, svcs, i);
      Untouched(FullPlan(cfg, k, userId, space, svcs), uid, m, RouteKey(s.name));
    }
  }

  lemma RouteUntouched(cfg: Config, k: string, userId: string, space: Space, svcs: seq<LabService>, i: nat)
    requires i < |svcs| && DistinctNames(svcs) && !(Routed(space, svcs[i]) && svcs[i].ports != [])
    requires svcs[i].name != WorkspaceRouteName(k)
    ensures forall a :: a in FullPlan(cfg, k, userId, space, svcs) ==> !Writes(a, RouteKey(svcs[i].name))
  {
    var s, key := svcs[i], RouteKey(svcs[i].name);
    WritersNamed(cfg, k, userId, space, svcs);
    SetupWritesNoRoute(cfg, space);
    forall a | a in FullPlan(cfg, k, userId, space, svcs) ensures !Writes(a, key) {
      if a in AllServiceActions(cfg, k, userId, space, svcs) {
        var t :| t in svcs && NamedAfter(space, t, a);
        if Writes(a, key) {
          SameNameSameService(svcs, s, t);
        }
      } else if a in WorkspaceActions(cfg, k, space) {
      } else {
        assert a in SetupPlan(cfg, space);
      }
    }
  }

  const WORKSPACE_PORTS: seq<Port> := [Port("web", GUARD_PORT)]

  /** Some selected service carries the name of the workspace Service, and overwrites its ports. */
  predicate Displaced(k: string, svcs: seq<LabService>) {
    exists i :: 0 <= i < |svcs| && svcs[i].name == WorkspaceName(k) && svcs[i].ports != WORKSPACE_PORTS
  }

  lemma SplitAtDesktop(cfg: Config, k: string, userId: string, space: Space, svcs: seq<LabService>)
    returns (before: seq<Action>, after: seq<Action>)
    ensures after == [WorkspaceRouteAction(cfg, k)] + AllServiceActions(cfg, k, userId, space, svcs)
    ensures FullPlan(cfg, k, userId, space, svcs) == before + [WorkspaceServiceAction(k)] + after
  {
    before := SetupPlan(cfg, space) + [ListTasks(cfg.validSelector(space.selector)), CreatePod(WorkspacePod(k, space))];
    after := [WorkspaceRouteAction(cfg, k)] + AllServiceActions(cfg, k, userId, space, svcs);
  }

  /** The workspace Service listens on the guard port exactly when no service with other
      ports took its name. */
  lemma WorkspaceServiceAfterPlan(cfg: Config, k: string, userId: string, space: Space, svcs: seq<LabService>,
                                  uid: Uid, m: map<Key, Obj>)
    requires DistinctNames(svcs)
    ensures Serves(ExecObjects(FullPlan(cfg, k, userId, space, svcs), uid, m), WorkspaceName(k), WORKSPACE_PORTS)
      <==> !Displaced(k, svcs)
  {
    if i :| 0 <= i < |svcs| && svcs[i].name == WorkspaceName(k) {
      ServiceAfterPlan(cfg, k, userId, space, svcs, i, uid, m);
      if j :| 0 <= j < |svcs| && svcs[j].name == WorkspaceName(k) && svcs[j].ports != WORKSPACE_PORTS {
        assert i == j;
      }
    } else {
      var key, tail := Key(KService, WorkspaceName(k)), AllServiceActions(cfg, k, userId, space, svcs);
      var before, after := SplitAtDesktop(cfg, k, userId, space, svcs);
      OthersDoNotWrite(cfg, k, userId, space, svcs, key);
      LastWrite(before, WorkspaceServiceAction(k), after, uid, m, key);
      WorkspaceServiceEffect(k, uid, Lookup(ExecObjects(before, uid, m), key));
    }
  }

  lemma WorkspaceServiceEffect(k: string, uid: Uid, found: Option<Obj>)
    ensures var o := Effect(WorkspaceServiceAction(k), uid, Key(KService, WorkspaceName(k)), found);
      && o.Some? && o.value.body.ServiceBody?
      && o.value.body.selector == map["app" := WorkspaceName(k)] && o.value.body.ports == WORKSPACE_PORTS
  {
  }

  // --------------------------------------------------------------- from end to end

  /** The workspace address and every HTTP address have their route, to a service that
      listens on the routed port. */
  predicate AddressesServed(cfg: Config, k: string, userId: string, space: Space, svcs: seq<LabService>,
                            objects: map<Key, Obj>) {
    && RoutesTo(objects, WorkspaceRouteName(k), WorkspaceHostname(k, cfg.Domain()), WorkspaceName(k), GUARD_PORT)
    && Serves(objects, WorkspaceName(k), WORKSPACE_PORTS)
    && (forall i :: 0 <= i < |svcs| && svcs[i].exposure == Some("HTTP") ==>
          && svcs[i].ports != []
          && RoutesTo(objects, svcs[i].name, ServiceHostname(svcs[i].name, userId, cfg.Domain()), svcs[i].name,
                      svcs[i].ports[0].number)
          && Serves(objects, svcs[i].name, svcs[i].ports))
  }

  /** The published endpoint at index n of the wanted list is that of the workspace or of a
      listed service, under the very host name its route serves. */
  lemma EndpointHosts(cfg: Config, k: string, userId: string, space: Space, svcs: seq<LabService>, e: Endpoint)
    requires e in DesiredEndpoints(cfg, k, userId, space, svcs)
    ensures e.address == Address(cfg, WorkspaceHostname(k, cfg.Domain()))
      || exists s :: s in svcs && s.exposure == Some(e.kind) && s.name == e.service
                     && e.address == Address(cfg, ServiceHostname(s.name, userId, cfg.Domain()))
  {
    if e != WorkspaceEndpoint(cfg, k, space) {
      ServiceEndpointsOrigin(cfg, userId, svcs, e);
      var s :| s in svcs && AddressOf(cfg, userId, s, e);
      OneAddress(cfg, userId, s, e);
      assert s.exposure == Some(e.kind) && s.name == e.service;
    }
  }

  lemma PanicsOnMissingPort(cfg: Config, k: string, userId: string, space: Space, svcs: seq<LabService>, i: nat)
    requires i < |svcs| && Routed(space, svcs[i]) && svcs[i].ports == []
    ensures PortPanic in FullPlan(cfg, k, userId, space, svcs)
  {
    AllServiceActionsHas(cfg, k, userId, space, svcs, i);
    assert PortPanic in ServiceActions(cfg, k, userId, space, svcs[i]);
  }

  /** Without missing ports, a full plan leaves every address served exactly when no service
      took the name of the workspace's route or Service. */
  lemma ServedAfterPlan(cfg: Config, k: string, userId: string, space: Space, svcs: seq<LabService>, uid: Uid,
                        m: map<Key, Obj>)
    requires DistinctNames(svcs) && !space.internalOnly
    requires PortPanic !in FullPlan(cfg, k, userId, space, svcs)
    ensures AddressesServed(cfg, k, userId, space, svcs, ExecObjects(FullPlan(cfg, k, userId, space, svcs), uid, m))
      <==> !Rerouted(k, space, svcs) && !Displaced(k, svcs)
  {
    WorkspaceRouteAfterPlan(cfg, k, userId, space, svcs, uid, m);
    WorkspaceServiceAfterPlan(cfg, k, userId, space, svcs, uid, m);
    var end := ExecObjects(FullPlan(cfg, k, userId, space, svcs), uid, m);
    forall i | 0 <= i < |svcs| && svcs[i].exposure == Some("HTTP")
      ensures svcs[i].ports != []
      ensures RoutesTo(end, svcs[i].name, ServiceHostname(svcs[i].name, userId, cfg.Domain()), svcs[i].name,
                       svcs[i].ports[0].number)
      ensures Serves(end, svcs[i].name, svcs[i].ports)
    {
      if svcs[i].ports == [] {
        PanicsOnMissingPort(cfg, k, userId, space, svcs, i);
        assert false;
      }
      ServiceRouteAfterPlan(cfg, k, userId, space, svcs, i, uid, m);
      ServiceAfterPlan(cfg, k, userId, space, svcs, i, uid, m);
    }
  }

  // ------------------------------------------------ what cut attempts do to the addresses

  /** What an action must not spoil: it leaves the key alone or writes what is wanted there. */
  predicate KeepsRoute(a: Action, name: string, body: Body) {
    Writes(a, RouteKey(name)) ==> a.Put? && a.body == body
  }

  predicate KeepsService(a: Action, name: string, ports: seq<Port>) {
    Writes(a, Key(KService, name)) ==>
      a.Put? && a.body.ServiceBody? && a.body.selector == map["app" := name] && a.body.ports == ports
  }

  lemma KeptRoute(a: Action, uid: Uid, m: map<Key, Obj>, name: string, host: string, backend: string, port: int)
    requires RoutesTo(m, name, host, backend, port) && KeepsRoute(a, name, RouteBody([host], backend, port))
    ensures RoutesTo(ApplyObjects(a, uid, m), name, host, backend, port)
  {
  }

  lemma KeptService(a: Action, uid: Uid, m: map<Key, Obj>, name: string, ports: seq<Port>)
    requires Serves(m, name, ports) && KeepsService(a, name, ports)
    ensures Serves(ApplyObjects(a, uid, m), name, ports)
  {
  }

  /** No action of the plan spoils an address, under the conditions for the plan to serve them. */
  predicate Harmless(cfg: Config, k: string, userId: string, svcs: seq<LabService>, a: Action) {
    && KeepsRoute(a, WorkspaceRouteName(k),
                  RouteBody([WorkspaceHostname(k, cfg.Domain())], WorkspaceName(k), GUARD_PORT))
    && KeepsService(a, WorkspaceName(k), WORKSPACE_PORTS)
    && (forall i :: 0 <= i < |svcs| && svcs[i].exposure == Some("HTTP") && svcs[i].ports != [] ==>
          && KeepsService(a, svcs[i].name, svcs[i].ports)
          && KeepsRoute(a, svcs[i].name,
                        RouteBody([ServiceHostname(svcs[i].name, userId, cfg.Domain())], svcs[i].name,
                                  svcs[i].ports[0].number)))
  }

  predicate Undisputed(k: string, space: Space, svcs: seq<LabService>) {
    !space.internalOnly && !Rerouted(k, space, svcs) && !Displaced(k, svcs)
  }

  /** The route and service writes of one service. */
  predicate WritesOwn(cfg: Config, userId: string, space: Space, s: LabService, a: Action) {
    && NamedAfter(space, s, a)
    && KeepsService(a, s.name, s.ports)
    && (s.ports != [] ==>
          KeepsRoute(a, s.name, RouteBody([ServiceHostname(s.name, userId, cfg.Domain())], s.name, s.ports[0].number)))
  }

  lemma OneServiceWritesOwn(cfg: Config, k: string, userId: string, space: Space, s: LabService)
    ensures forall a :: a in ServiceActions(cfg, k, userId, space, s) ==> WritesOwn(cfg, userId, space, s, a)
  {
  }

  lemma {:induction false} ServicesWriteOwn(cfg: Config, k: string, userId: string, space: Space, svcs: seq<LabService>)
    ensures forall a :: a in AllServiceActions(cfg, k, userId, space, svcs)
              ==> exists s :: s in svcs && WritesOwn(cfg, userId, space, s, a)
    decreases |svcs|
  {
    if svcs != [] {
      var head := ServiceActions(cfg, k, userId, space, svcs[0]);
      var tail := AllServiceActions(cfg, k, userId, space, svcs[1..]);
      OneServiceWritesOwn(cfg, k, userId, space, svcs[0]);
      ServicesWriteOwn(cfg, k, userId, space, svcs[1..]);
      forall a | a in head + tail ensures exists s :: s in svcs && WritesOwn(cfg, userId, space, s, a) {
        if a in head {
          assert svcs[0] in svcs && WritesOwn(cfg, userId, space, svcs[0], a);
        } else {
          var s :| s in svcs[1..] && WritesOwn(cfg, userId, space, s, a);
          assert s in svcs;
        }
      }
    }
  }

  lemma OwnIsHarmless(cfg: Config, k: string, userId: string, space: Space, svcs: seq<LabService>, s: LabService,
                      a: Action)
    requires DistinctNames(svcs) && Undisputed(k, space, svcs) && s in svcs && WritesOwn(cfg, userId, space, s, a)
    ensures Harmless(cfg, k, userId, svcs, a)
  {
    var j :| 0 <= j < |svcs| && svcs[j] == s;
    forall i | 0 <= i < |svcs| && svcs[i].exposure == Some("HTTP") && svcs[i].ports != []
      ensures KeepsService(a, svcs[i].name, svcs[i].ports)
      ensures KeepsRoute(a, svcs[i].name,
                         RouteBody([ServiceHostname(svcs[i].name, userId, cfg.Domain())], svcs[i].name,
                                   svcs[i].ports[0].number))
    {
      if svcs[i].name == s.name {
        SameNameSameService(svcs, svcs[i], s);
      }
    }
  }

  lemma DesktopIsHarmless(cfg: Config, k: string, userId: string, space: Space, svcs: seq<LabService>, a: Action)
    requires Undisputed(k, space, svcs) && a in WorkspaceActions(cfg, k, space)
    ensures Harmless(cfg, k, userId, svcs, a)
  {
  }

  lemma SetupIsHarmless(cfg: Config, k: string, userId: string, space: Space, svcs: seq<LabService>, a: Action)
    requires a in SetupPlan(cfg, space)
    ensures Harmless(cfg, k, userId, svcs, a)
  {
    SetupWritesNoRoute(cfg, space);
  }

  lemma PlanIsHarmless(cfg: Config, k: string, userId: string, space: Space, svcs: seq<LabService>)
    requires DistinctNames(svcs) && Undisputed(k, space, svcs)
    ensures forall a :: a in FullPlan(cfg, k, userId, space, svcs) ==> Harmless(cfg, k, userId, svcs, a)
  {
    ServicesWriteOwn(cfg, k, userId, space, svcs);
    forall a | a in FullPlan(cfg, k, userId, space, svcs) ensures Harmless(cfg, k, userId, svcs, a) {
      if a in AllServiceActions(cfg, k, userId, space, svcs) {
        var s :| s in svcs && WritesOwn(cfg, userId, space, s, a);
        OwnIsHarmless(cfg, k, userId, space, svcs, s, a);
      } else if a in WorkspaceActions(cfg, k, space) {
        DesktopIsHarmless(cfg, k, userId, space, svcs, a);
      } else {
        SetupIsHarmless(cfg, k, userId, space, svcs, a);
      }
    }
  }

  lemma OneActionServed(cfg: Config, k: string, userId: string, space: Space, svcs: seq<LabService>, a: Action,
                        uid: Uid, m: map<Key, Obj>)
    requires AddressesServed(cfg, k, userId, space, svcs, m) && Harmless(cfg, k, userId, svcs, a)
    ensures AddressesServed(cfg, k, userId, space, svcs, ApplyObjects(a, uid, m))
  {
    KeptRoute(a, uid, m, WorkspaceRouteName(k), WorkspaceHostname(k, cfg.Domain()), WorkspaceName(k), GUARD_PORT);
    KeptService(a, uid, m, WorkspaceName(k), WORKSPACE_PORTS);
    forall i | 0 <= i < |svcs| && svcs[i].exposure == Some("HTTP")
      ensures RoutesTo(ApplyObjects(a, uid, m), svcs[i].name, ServiceHostname(svcs[i].name, userId, cfg.Domain()),
                       svcs[i].name, svcs[i].ports[0].number)
      ensures Serves(ApplyObjects(a, uid, m), svcs[i].name, svcs[i].ports)
    {
      KeptRoute(a, uid, m, svcs[i].name, ServiceHostname(svcs[i].name, userId, cfg.Domain()), svcs[i].name,
                svcs[i].ports[0].number);
      KeptService(a, uid, m, svcs[i].name, svcs[i].ports);
    }
  }

  lemma {:induction false} PrefixServed(cfg: Config, k: string, userId: string, space: Space, svcs: seq<LabService>,
                                        acts: seq<Action>, uid: Uid, m: map<Key, Obj>)
    requires AddressesServed(cfg, k, userId, space, svcs, m)
    requires forall a :: a in acts ==> Harmless(cfg, k, userId, svcs, a)
    ensures AddressesServed(cfg, k, userId, space, svcs, ExecObjects(acts, uid, m))
    decreases |acts|
  {
    if acts != [] {
      OneActionServed(cfg, k, userId, space, svcs, acts[0], uid, m);
      PrefixServed(cfg, k, userId, space, svcs, acts[1..], uid, ApplyObjects(acts[0], uid, m));
    }
  }

  // ------------------------------------------------------------------ whole reconciles

  /** The endpoints in the status are those of the current templates. */
  predicate EndpointsCurrent(cfg: Config, c: Cluster, k: string)
    requires Live(c, k)
  {
    c.sessions[k].status.endpoints
    == DesiredEndpoints(cfg, k, c.sessions[k].userId, SpaceOf(c, k), ServicesOf(cfg, c, k))
  }

  /** The namespace is there and serves every address of the current templates. */
  predicate ServedAt(cfg: Config, c: Cluster, k: string, d: Cluster)
    requires Live(c, k)
  {
    && NamespaceAt(d, k).Some?
    && AddressesServed(cfg, k, c.sessions[k].userId, SpaceOf(c, k), ServicesOf(cfg, c, k),
                       NamespaceAt(d, k).value.objects)
  }

  /** The objects a successful reconcile leaves are those of the plan, and no port was missing. */
  lemma SuccessRunsPlan(plan: seq<Action>, who: Birth, ns: Option<Namespace>)
    requires plan != [] && plan[0].EnsureNamespace? && NoClash(plan) && Admissible(plan, who, ns)
    ensures var n := Apply(EnsureNamespace, who, 0, ns).value;
      var end := Exec(plan, who, ns);
      end.Some? && end.value.objects == ExecObjects(plan, who.uid, n.objects) && PortPanic !in plan
  {
    var n := Apply(EnsureNamespace, who, 0, ns).value;
    assert Exec(plan, who, ns) == Exec(plan, who, Some(n));
    ExecParts(plan, who, n);
    assert Admissible(plan, who, Some(n));
    AdmissibleIffClear(plan, who, n);
  }

  /** After a successful reconcile of a space that is not internal-only, the workspace and
      every HTTP address are served exactly when no selected service took the name of the
      workspace's route or Service. */
  lemma ServedAfterSuccess(cfg: Config, k: string, c: Cluster, turns: nat -> Turn)
    requires Live(c, k) && DistinctNames(c.services) && Quiet(turns)
    requires Succeeded(Drive(cfg, k, Begin, c, turns, 0).0) && !SpaceOf(c, k).internalOnly
    ensures ServedAt(cfg, c, k, Once(cfg, k, c, turns)) <==> Undisputed(k, SpaceOf(c, k), ServicesOf(cfg, c, k))
  {
    var done := LiveAttempt(cfg, k, c, turns);
    var plan, who, ns := PlanOf(cfg, c, k), WhoAt(c, k), Erase(NamespaceAt(c, k));
    assert plan[..|plan|] == plan;
    PlanStarts(cfg, c, k);
    SelectedDistinct(cfg, SpaceOf(c, k).selector, c.services);
    SuccessRunsPlan(plan, who, ns);
    var n := Apply(EnsureNamespace, who, 0, ns).value;
    ServedAfterPlan(cfg, k, c.sessions[k].userId, SpaceOf(c, k), ServicesOf(cfg, c, k), who.uid, n.objects);
  }

  lemma EndpointsKept(cfg: Config, k: string, c: Cluster, l: Local, d: Cluster, done: nat)
    requires Live(c, k) && Leaves(cfg, c, k, l, d, done)
    requires EndpointsCurrent(cfg, c, k) || (c.sessions[k].status.endpoints == [] && Succeeded(l))
    ensures k in d.sessions
    ensures d.sessions[k].status.endpoints
         == DesiredEndpoints(cfg, k, c.sessions[k].userId, SpaceOf(c, k), ServicesOf(cfg, c, k))
    ensures Live(d, k) ==> EndpointsCurrent(cfg, d, k)
  {
  }

  /** A successful reconcile of a session that has no endpoints yet, or current ones, leaves
      current endpoints, all of them served. */
  lemma EndpointsServed(cfg: Config, k: string, c: Cluster, turns: nat -> Turn)
    requires Live(c, k) && DistinctNames(c.services) && Quiet(turns)
    requires Succeeded(Drive(cfg, k, Begin, c, turns, 0).0)
    requires c.sessions[k].status.endpoints == [] || EndpointsCurrent(cfg, c, k)
    requires Undisputed(k, SpaceOf(c, k), ServicesOf(cfg, c, k))
    ensures var d := Once(cfg, k, c, turns);
      && ServedAt(cfg, c, k, d)
      && k in d.sessions
      && d.sessions[k].status.endpoints
         == DesiredEndpoints(cfg, k, c.sessions[k].userId, SpaceOf(c, k), ServicesOf(cfg, c, k))
      && (Live(d, k) ==> EndpointsCurrent(cfg, d, k))
  {
    var done := LiveAttempt(cfg, k, c, turns);
    var (l, d, _) := Drive(cfg, k, Begin, c, turns, 0);
    EndpointsKept(cfg, k, c, l, d, done);
    ServedAfterSuccess(cfg, k, c, turns);
  }

  /** While templates stay as they are, one further attempt, however its calls fail, keeps
      served addresses served and the endpoints as they are. */
  lemma AttemptKeepsServed(cfg: Config, k: string, c: Cluster, turns: nat -> Turn)
    requires Live(c, k) && DistinctNames(c.services) && Quiet(turns)
    requires EndpointsCurrent(cfg, c, k) && ServedAt(cfg, c, k, c)
    requires Undisputed(k, SpaceOf(c, k), ServicesOf(cfg, c, k))
    ensures var d := Once(cfg, k, c, turns);
      && ServedAt(cfg, c, k, d)
      && k in d.sessions
      && d.sessions[k].status.endpoints == c.sessions[k].status.endpoints
  {
    var done := LiveAttempt(cfg, k, c, turns);
    var (l, d, _) := Drive(cfg, k, Begin, c, turns, 0);
    var s, space, svcs := c.sessions[k], SpaceOf(c, k), ServicesOf(cfg, c, k);
    var n := Erase(NamespaceAt(c, k)).value;
    var prefix := PlanOf(cfg, c, k)[..done];
    EndpointsKept(cfg, k, c, l, d, done);
    SelectedDistinct(cfg, space.selector, c.services);
    PlanIsHarmless(cfg, k, s.userId, space, svcs);
    PrefixServed(cfg, k, s.userId, space, svcs, prefix, s.uid, n.objects);
    ExecParts(prefix, WhoAt(c, k), n);
  }

  /** Templates and the parts of the session that shape its endpoints are as in c. */
  lemma SameWanted(cfg: Config, c: Cluster, k: string, d: Cluster, elapsed: nat)
    requires Live(c, k) && Reached(cfg, c, k, d) && Live(Wait(d, elapsed), k)
    ensures var e := Wait(d, elapsed);
      && SpaceOf(e, k) == SpaceOf(c, k) && ServicesOf(cfg, e, k) == ServicesOf(cfg, c, k)
      && e.sessions[k].userId == c.sessions[k].userId && e.services == c.services
      && forall x :: ServedAt(cfg, e, k, x) <==> ServedAt(cfg, c, k, x)
  {
    WaitReaches(cfg, c, k, d, elapsed);
    PlanUnchanged(cfg, c, k, Wait(d, elapsed));
  }

  /** While templates stay as they are, served addresses stay served and current endpoints
      stay current through any number of further attempts, each cut at any call, with time
      passing in between. */
  lemma {:induction false} EndpointsStayServed(cfg: Config, k: string, c: Cluster, attempts: seq<Attempt>)
    requires Live(c, k) && DistinctNames(c.services) && LiveThroughout(cfg, k, c, attempts)
    requires EndpointsCurrent(cfg, c, k) && ServedAt(cfg, c, k, c)
    requires Undisputed(k, SpaceOf(c, k), ServicesOf(cfg, c, k))
    ensures var d := AfterAttempts(cfg, k, c, attempts);
      && ServedAt(cfg, c, k, d)
      && k in d.sessions
      && d.sessions[k].status.endpoints
         == DesiredEndpoints(cfg, k, c.sessions[k].userId, SpaceOf(c, k), ServicesOf(cfg, c, k))
    decreases |attempts|
  {
    if attempts != [] {
      var front, last := attempts[..|attempts| - 1], attempts[|attempts| - 1];
      var d := AfterAttempts(cfg, k, c, front);
      LiveFront(cfg, k, c, attempts);
      EndpointsStayServed(cfg, k, c, front);
      AttemptsReach(cfg, k, c, front);
      SameWanted(cfg, c, k, d, last.elapsed);
      assert NamespaceAt(Wait(d, last.elapsed), k) == NamespaceAt(d, k);
      AttemptKeepsServed(cfg, k, Wait(d, last.elapsed), last.turns);
    }
  }
}
