/** Timers, endpoints, write-on-change and requeue arithmetic of the status pass. */
module StatusSync {
  import opened Common
  import opened Names
  import opened Objects
  import opened Phases

  // ---------------------------------------------------------------------- timers

  function Ttl(cfg: Config, space: Space): int {
    match cfg.parseDuration(space.defaultTtl)
    case None => HOUR
    case Some(d) => d
  }

  function WithTimers(cfg: Config, status: Status, space: Space, now: int): Status {
    if status.startTime.Some? then status
    else status.(startTime := Some(now), expiredTime := Some(now + Ttl(cfg, space)), phase := Pending)
  }

  /** The store keeps whole seconds only. */
  function WholeSeconds(t: int): (r: int)
    ensures r <= t < r + SECOND && r % SECOND == 0
  {
    t - t % SECOND
  }

  function StoredTime(t: Option<int>): Option<int> {
    if t.None? then None else Some(WholeSeconds(t.value))
  }

  function Stored(status: Status): Status {
    status.(startTime := StoredTime(status.startTime), expiredTime := StoredTime(status.expiredTime))
  }

  // -------------------------------------------------------------------- endpoints

  function Address(cfg: Config, host: string): string {
    cfg.Scheme() + "://" + host
  }

  function WorkspaceEndpoint(cfg: Config, k: string, space: Space): Endpoint {
    Endpoint("workspace", if space.workspaceType == "VNC" then "VNC" else "Terminal",
             Address(cfg, WorkspaceHostname(k, cfg.Domain())))
  }

  function ServiceEndpoint(cfg: Config, userId: string, svc: LabService): Endpoint
    requires svc.exposure.Some?
  {
    Endpoint(svc.name, svc.exposure.value, Address(cfg, ServiceHostname(svc.name, userId, cfg.Domain())))
  }

  function ServiceEndpoints(cfg: Config, userId: string, svcs: seq<LabService>): seq<Endpoint> {
    if svcs == [] then []
    else
      var last := svcs[|svcs| - 1];
      ServiceEndpoints(cfg, userId, svcs[..|svcs| - 1])
      + (if last.exposure.Some? then [ServiceEndpoint(cfg, userId, last)] else [])
  }

  function DesiredEndpoints(cfg: Config, k: string, userId: string, space: Space,
                            svcs: seq<LabService>): (r: seq<Endpoint>)
    ensures |r| >= 1
  {
    [WorkspaceEndpoint(cfg, k, space)] + (if space.internalOnly then [] else ServiceEndpoints(cfg, userId, svcs))
  }

  /** How many of the services are exposed. */
  function Exposures(svcs: seq<LabService>): nat {
    if svcs == [] then 0 else Exposures(svcs[..|svcs| - 1]) + (if svcs[|svcs| - 1].exposure.Some? then 1 else 0)
  }

  /** How many endpoints a session has: the workspace alone in an internal-only space. */
  function EndpointCount(space: Space, svcs: seq<LabService>): nat {
    if space.internalOnly then 1 else 1 + Exposures(svcs)
  }

  /** The endpoint of one exposed service, with the host under its user's name. */
  predicate AddressOf(cfg: Config, userId: string, svc: LabService, e: Endpoint) {
    && svc.exposure == Some(e.kind) && e.service == svc.name
    && e.address == cfg.Scheme() + "://" + svc.name + "-" + userId + ".web." + cfg.Domain()
  }

  /** The list to publish: the workspace first, and after it nothing in an internal-only
      space, otherwise one entry for each exposed service in list order. */
  ghost predicate Publishes(cfg: Config, k: string, userId: string, space: Space, svcs: seq<LabService>,
                      endpoints: seq<Endpoint>) {
    && |endpoints| == EndpointCount(space, svcs)
    && endpoints[0].service == "workspace"
    && (endpoints[0].kind == "VNC" <==> space.workspaceType == "VNC")
    && (endpoints[0].kind == "Terminal" <==> space.workspaceType != "VNC")
    && endpoints[0].address == cfg.Scheme() + "://" + WorkspaceHostname(k, cfg.Domain())
    && (forall e :: e in endpoints[1..]
          <==> !space.internalOnly && exists s :: s in svcs && AddressOf(cfg, userId, s, e))
    && (!space.internalOnly ==> forall i :: 0 <= i < |svcs| && svcs[i].exposure.Some? ==>
          var n := 1 + Exposures(svcs[..i]);
          n < |endpoints| && AddressOf(cfg, userId, svcs[i], endpoints[n]))
  }

  lemma OneAddress(cfg: Config, userId: string, svc: LabService, e: Endpoint)
    ensures AddressOf(cfg, userId, svc, e) <==> svc.exposure.Some? && e == ServiceEndpoint(cfg, userId, svc)
  {
    var tail := "-" + userId + ".web." + cfg.Domain();
    assert ServiceHostname(svc.name, userId, cfg.Domain()) == svc.name + tail;
    assert cfg.Scheme() + "://" + svc.name + "-" + userId + ".web." + cfg.Domain()
        == cfg.Scheme() + "://" + ServiceHostname(svc.name, userId, cfg.Domain());
  }

  /** Every published service endpoint is that of a listed exposed service, and the other
      way around. */
  lemma {:induction false} ServiceEndpointsOrigin(cfg: Config, userId: string, svcs: seq<LabService>, e: Endpoint)
    ensures e in ServiceEndpoints(cfg, userId, svcs) <==> exists s :: s in svcs && AddressOf(cfg, userId, s, e)
    decreases |svcs|
  {
    if svcs != [] {
      var front, last := svcs[..|svcs| - 1], svcs[|svcs| - 1];
      ServiceEndpointsOrigin(cfg, userId, front, e);
      OneAddress(cfg, userId, last, e);
      assert svcs == front + [last];
      assert last in svcs;
    }
  }

  lemma {:induction false} ServiceEndpointAt(cfg: Config, userId: string, svcs: seq<LabService>, i: nat)
    requires i < |svcs|
    ensures |ServiceEndpoints(cfg, userId, svcs)| == Exposures(svcs)
    ensures svcs[i].exposure.Some? ==>
      var n := Exposures(svcs[..i]);
      n < Exposures(svcs) && ServiceEndpoints(cfg, userId, svcs)[n] == ServiceEndpoint(cfg, userId, svcs[i])
    decreases |svcs|
  {
    var front := svcs[..|svcs| - 1];
    if front != [] {
      ServiceEndpointAt(cfg, userId, front, if i < |front| then i else 0);
    }
    if i < |front| {
      assert front[..i] == svcs[..i];
    }
  }

  /** The wanted list is the list to publish. */
  lemma DesiredPublishes(cfg: Config, k: string, userId: string, space: Space, svcs: seq<LabService>)
    ensures Publishes(cfg, k, userId, space, svcs, DesiredEndpoints(cfg, k, userId, space, svcs))
    ensures |DesiredEndpoints(cfg, k, userId, space, svcs)| == EndpointCount(space, svcs)
  {
    var wanted := DesiredEndpoints(cfg, k, userId, space, svcs);
    if svcs != [] {
      ServiceEndpointAt(cfg, userId, svcs, 0);
    }
    forall e
      ensures e in wanted[1..] <==> !space.internalOnly && exists s :: s in svcs && AddressOf(cfg, userId, s, e)
    {
      ServiceEndpointsOrigin(cfg, userId, svcs, e);
      assert wanted[1..] == if space.internalOnly then [] else ServiceEndpoints(cfg, userId, svcs);
    }
    if !space.internalOnly {
      forall i | 0 <= i < |svcs| && svcs[i].exposure.Some?
        ensures var n := 1 + Exposures(svcs[..i]);
          n < |wanted| && AddressOf(cfg, userId, svcs[i], wanted[n])
      {
        ServiceEndpointAt(cfg, userId, svcs, i);
        OneAddress(cfg, userId, svcs[i], ServiceEndpoint(cfg, userId, svcs[i]));
      }
    }
  }

  // -------------------------------------------------------------------- the pass

  /** The status the pass arrives at, and whether it is written. */
  function Synced(cfg: Config, k: string, userId: string, status: Status, space: Space, svcs: seq<LabService>,
                  pods: seq<Pod>, now: int): (Status, bool)
  {
    var timed := WithTimers(cfg, status, space, now);
    var verdict := ComputePhase(pods);
    var desired := DesiredEndpoints(cfg, k, userId, space, svcs);
    var recount := |status.endpoints| != |desired|;
    (timed.(phase := verdict.phase, message := verdict.message, namespace := NamespaceOf(k),
            endpoints := if recount then desired else status.endpoints),
     status.startTime.None? || timed.phase != verdict.phase || status.message != verdict.message || recount)
  }

  const FAST := 2 * SECOND

  function Requeue(status: Status, now: int): int {
    var delay := if status.phase == Running then MINUTE else FAST;
    if status.expiredTime.Some? && 0 < status.expiredTime.value - now < delay
    then status.expiredTime.value - now else delay
  }

  /** The status as the store holds it after a pass over these pods: their verdict, the
      namespace, the endpoints only replaced when their number is off, and timers that are
      started once, with an hour to live when the lifetime does not parse. */
  ghost predicate Refreshed(cfg: Config, k: string, userId: string, space: Space, svcs: seq<LabService>, pods: seq<Pod>,
                      now: int, before: Status, after: Status) {
    && Verdict(after.phase, after.message) == ComputePhase(pods)
    && after.namespace == NamespaceOf(k)
    && (if |before.endpoints| == EndpointCount(space, svcs) then after.endpoints == before.endpoints
        else Publishes(cfg, k, userId, space, svcs, after.endpoints))
    && (if before.startTime.Some? then
          && after.startTime == StoredTime(before.startTime)
          && after.expiredTime == StoredTime(before.expiredTime)
        else
          && after.startTime == Some(WholeSeconds(now))
          && after.expiredTime.Some?
          && (cfg.parseDuration(space.defaultTtl) == None
              ==> after.expiredTime.value == WholeSeconds(now + 3600 * SECOND))
          && (forall d :: cfg.parseDuration(space.defaultTtl) == Some(d)
                ==> after.expiredTime.value == WholeSeconds(now + d)))
  }

  /** The pass brings the status up to date, and leaves it alone exactly when timers, verdict
      and endpoint count already agreed. */
  lemma SyncedAgrees(cfg: Config, k: string, userId: string, status: Status, space: Space, svcs: seq<LabService>,
                     pods: seq<Pod>, now: int)
    ensures var (s, changed) := Synced(cfg, k, userId, status, space, svcs, pods, now);
      && Refreshed(cfg, k, userId, space, svcs, pods, now, status, Stored(s))
      && (!changed <==> && status.startTime.Some?
                        && Verdict(status.phase, status.message) == ComputePhase(pods)
                        && |status.endpoints| == EndpointCount(space, svcs))
      && (!changed ==> s == status.(namespace := NamespaceOf(k)))
  {
    DesiredPublishes(cfg, k, userId, space, svcs);
  }

  /** A written status needs no second write: the pass settles in one step, even though
      the store drops fractions of a second. */
  lemma SyncSettles(cfg: Config, k: string, userId: string, status: Status, space: Space, svcs: seq<LabService>,
                    pods: seq<Pod>, now: int, later: int)
    ensures var s := Stored(Synced(cfg, k, userId, status, space, svcs, pods, now).0);
      Synced(cfg, k, userId, s, space, svcs, pods, later) == (s, false)
  {
  }

  /** The expiry is still ahead, and less than the given time away. */
  predicate DueWithin(status: Status, now: int, limit: int) {
    status.expiredTime.Some? && now < status.expiredTime.value < now + limit
  }

  /** A running session waits a minute and any other two seconds, unless its expiry comes
      first: then exactly until the expiry. */
  lemma RequeueBounds(status: Status, now: int)
    ensures 0 < Requeue(status, now) <= MINUTE
    ensures status.expiredTime.Some? && now < status.expiredTime.value
      ==> now + Requeue(status, now) <= status.expiredTime.value
    ensures status.phase == Running && !DueWithin(status, now, 60 * SECOND) ==> Requeue(status, now) == 60 * SECOND
    ensures status.phase != Running && !DueWithin(status, now, 2 * SECOND) ==> Requeue(status, now) == 2 * SECOND
    ensures DueWithin(status, now, if status.phase == Running then 60 * SECOND else 2 * SECOND)
      ==> now + Requeue(status, now) == status.expiredTime.value
  {
  }
}
