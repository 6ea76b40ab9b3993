/** What every step of the protocol keeps, for every session, and its consequences. */
module Invariants {
  import opened Common
  import opened Egress
  import opened Resources
  import opened Names
  import opened Objects
  import opened Actions
  import opened Plans
  import opened StatusSync
  import opened Protocol

  // -------------------------------------------------------------- well-formed actions

  /** Policies sit under the keys made for them, and quota objects carry no owner. */
  ghost predicate PolicyFits(key: Key, body: Body) {
    if key.kind != KPolicy then !body.PolicyBody?
    else
      && body.PolicyBody?
      && ((key == BASELINE && exists b :: body.policy == BaselinePolicy(b))
          || (exists s, rules :: key == EgressKey(s) && body.policy == ServicePolicy(s, rules)))
  }

  predicate Pillar(key: Key) {
    key == BASELINE || key == QUOTA || key == LIMIT_RANGE
  }

  ghost predicate Sound(a: Action) {
    match a
    case Put(key, ownership, body) =>
      && PolicyFits(key, body)
      && (key == BASELINE ==> ownership.Controlled?)
      && (key == QUOTA || key == LIMIT_RANGE ==> ownership.Unowned?)
    case Drop(key) => !Pillar(key)
    case _ => true
  }

  lemma SetupTail(cfg: Config, space: Space, a: Action)
    requires a in PullSecretActions(cfg) + QuotaActions(space) + LimitRangeActions(space)
      + [Drop(LEGACY_POLICY), BaselineAction(space)]
    ensures !a.EnsureNamespace? && !a.CreatePod?
  {
  }

  lemma SetupMemberSound(cfg: Config, space: Space, a: Action)
    requires a in SetupPlan(cfg, space)
    ensures Sound(a)
  {
    if a in QuotaActions(space) {
    } else if a in LimitRangeActions(space) {
    } else if a in PullSecretActions(cfg) {
    } else {
      assert a == EnsureNamespace || a == Drop(LEGACY_POLICY) || a == BaselineAction(space);
    }
  }

  lemma SetupFirst(cfg: Config, space: Space)
    ensures var plan := SetupPlan(cfg, space);
      && plan != [] && plan[0] == EnsureNamespace
      && forall i :: 0 < i < |plan| ==> !plan[i].EnsureNamespace? && !plan[i].CreatePod?
  {
    var plan := SetupPlan(cfg, space);
    var tail := PullSecretActions(cfg) + QuotaActions(space) + LimitRangeActions(space)
      + [Drop(LEGACY_POLICY), BaselineAction(space)];
    assert plan == [EnsureNamespace] + tail;
    forall i | 0 < i < |plan| ensures !plan[i].EnsureNamespace? && !plan[i].CreatePod? {
      assert plan[i] == tail[i - 1];
      SetupTail(cfg, space, tail[i - 1]);
    }
  }

  lemma SetupPillars(cfg: Config, space: Space)
    ensures WritesKey(SetupPlan(cfg, space), BASELINE)
    ensures Capped(space.resources) ==>
      WritesKey(SetupPlan(cfg, space), QUOTA) && WritesKey(SetupPlan(cfg, space), LIMIT_RANGE)
  {
    SetupWrites(cfg, space);
    assert BaselineAction(space) in SetupPlan(cfg, space);
    if Capped(space.resources) {
      CappedPlanHas(cfg, space);
    }
  }

  lemma SetupOrdered(cfg: Config, space: Space)
    ensures Ordered(space, SetupPlan(cfg, space))
  {
    SetupFirst(cfg, space);
    SetupPillars(cfg, space);
  }

  lemma SetupSound(cfg: Config, space: Space)
    ensures AllSound(SetupPlan(cfg, space)) && Ordered(space, SetupPlan(cfg, space))
  {
    SetupOrdered(cfg, space);
    forall a | a in SetupPlan(cfg, space) ensures Sound(a) {
      SetupMemberSound(cfg, space, a);
    }
  }

  lemma EgressSound(svc: LabService)
    ensures Sound(EgressAction(svc))
  {
    PolicyNamesDistinct(svc.name, svc.name);
  }

  lemma WorkSound(cfg: Config, k: string, userId: string, space: Space, svcs: seq<LabService>)
    ensures forall a :: a in WorkPlan(cfg, k, userId, space, svcs) ==> Sound(a) && !a.EnsureNamespace?
  {
    AllServiceActionsMember(cfg, k, userId, space, svcs);
    forall a | a in AllServiceActions(cfg, k, userId, space, svcs) ensures Sound(a) && !a.EnsureNamespace? {
      var s :| s in svcs && FromService(s, a);
      EgressSound(s);
    }
    assert forall a :: a in WorkspaceActions(cfg, k, space) ==> Sound(a) && !a.EnsureNamespace?;
  }

  // ---------------------------------------------------------------------- per session

  predicate TimersSet(s: Status) {
    s.startTime.Some? && s.expiredTime.Some?
  }

  predicate SameTimers(a: Status, b: Status) {
    a.startTime == b.startTime && a.expiredTime == b.expiredTime
  }

  predicate SessionOk(c: Cluster, k: string) {
    k in c.sessions ==>
      var s := c.sessions[k];
      && s.uid < c.nextUid
      && (s.deleting ==> s.finalizer)
      && (TimersSet(s.status) ==> s.finalizer)
      && (s.status.startTime.Some? <==> s.status.expiredTime.Some?)
      && (TimersSet(s.status) ==> s.status.namespace == NamespaceOf(k))
      && Stored(s.status) == s.status
      && s.history.restarts + (if RestartPending(s) then 1 else 0) <= s.history.bumps
  }

  /** The baseline belongs to the given incarnation, and a capped one has its quota. */
  predicate Guarded(objects: map<Key, Obj>, uid: Uid, capped: bool) {
    && BASELINE in objects && objects[BASELINE].owner == Some(Own(uid))
    && (capped ==> QUOTA in objects && LIMIT_RANGE in objects)
  }

  ghost predicate ObjectsOk(objects: map<Key, Obj>) {
    forall key :: key in objects ==>
      && PolicyFits(key, objects[key].body)
      && (key == QUOTA || key == LIMIT_RANGE ==> objects[key].owner.None?)
  }

  predicate PodOk(p: Pod, nextUid: Uid) {
    p.birth.uid < nextUid && p.deletes <= 1 && (p.deletes == 1 ==> p.terminating)
  }

  predicate PodsOk(pods: seq<Pod>, nextUid: Uid) {
    DistinctPods(pods) && forall i :: 0 <= i < |pods| ==> PodOk(pods[i], nextUid)
  }

  predicate PodsGuarded(pods: seq<Pod>, objects: map<Key, Obj>, uid: Uid) {
    forall i :: 0 <= i < |pods| && pods[i].birth.uid == uid ==> Guarded(objects, uid, pods[i].birth.capped)
  }

  predicate NoneBornTo(pods: seq<Pod>, uid: Uid) {
    forall i :: 0 <= i < |pods| ==> pods[i].birth.uid != uid
  }

  /** A namespace that nobody is removing belongs to a live session with the finalizer,
      or to one whose namespace delete reported an error. */
  predicate Accounted(c: Cluster, k: string, n: Namespace) {
    n.terminating || n.birth in c.leaked
    || (k in c.sessions && c.sessions[k].uid == n.birth && c.sessions[k].finalizer)
  }

  /** Births in a namespace lie between its own and that of the current incarnation. */
  predicate BirthsOrdered(c: Cluster, k: string, n: Namespace) {
    && (forall i :: 0 <= i < |n.pods| ==> n.birth <= n.pods[i].birth.uid)
    && (k in c.sessions ==>
          n.birth <= c.sessions[k].uid && forall i :: 0 <= i < |n.pods| ==> n.pods[i].birth.uid <= c.sessions[k].uid)
  }

  ghost predicate NamespaceOk(c: Cluster, k: string) {
    NamespaceAt(c, k).Some? ==>
      var n := NamespaceAt(c, k).value;
      && n.birth < c.nextUid
      && PodsOk(n.pods, c.nextUid)
      && ObjectsOk(n.objects)
      && Accounted(c, k, n)
      && BirthsOrdered(c, k, n)
      && (!n.terminating && k in c.sessions ==> PodsGuarded(n.pods, n.objects, c.sessions[k].uid))
      && (n.terminating && k in c.sessions && !c.sessions[k].deleting ==> NoneBornTo(n.pods, c.sessions[k].uid))
  }

  /** What the copy of a session in a reconcile's hands says about the stored one. */
  predicate Snapshot(c: Cluster, k: string, s: Session) {
    && s.uid < c.nextUid
    && (k in c.sessions && c.sessions[k].uid == s.uid ==>
          var t := c.sessions[k];
          && s.version <= t.version
          && (s.version == t.version ==> t == s)
          && (s.deleting ==> t.deleting)
          && t.status == s.status)
  }

  /** The finalizer keeps the incarnation that was read in the store. */
  predicate Pinned(c: Cluster, k: string, s: Session) {
    && Snapshot(c, k, s)
    && s.finalizer
    && k in c.sessions && c.sessions[k].uid == s.uid && c.sessions[k].finalizer
    && (s.status.startTime.Some? <==> s.status.expiredTime.Some?)
  }

  predicate WritesKey(todo: seq<Action>, key: Key) {
    exists a :: a in todo && a.Put? && a.key == key
  }

  /** Every pillar is in place or still to be written. */
  predicate SetUp(c: Cluster, k: string, s: Session, space: Space, todo: seq<Action>) {
    NamespaceAt(c, k).Some? && !NamespaceAt(c, k).value.terminating ==>
      var objects := NamespaceAt(c, k).value.objects;
      && (WritesKey(todo, BASELINE) || (BASELINE in objects && objects[BASELINE].owner == Some(Own(s.uid))))
      && (Capped(space.resources) ==> (WritesKey(todo, QUOTA) || QUOTA in objects)
                                      && (WritesKey(todo, LIMIT_RANGE) || LIMIT_RANGE in objects))
  }

  /** The namespace is made by the first call only, with every pillar still to come. */
  predicate Ordered(space: Space, todo: seq<Action>) {
    && (forall i :: 0 < i < |todo| ==> !todo[i].EnsureNamespace? && !todo[i].CreatePod?)
    && (todo != [] ==> !todo[0].CreatePod?)
    && (todo != [] && todo[0].EnsureNamespace? ==>
          && WritesKey(todo, BASELINE)
          && (Capped(space.resources) ==> WritesKey(todo, QUOTA) && WritesKey(todo, LIMIT_RANGE)))
  }

  predicate NamespaceGone(c: Cluster, k: string) {
    NamespaceAt(c, k).Some? ==> NamespaceAt(c, k).value.terminating
  }

  predicate LiveWithin(pods: seq<Pod>, names: seq<string>, failed: set<string>) {
    forall i :: 0 <= i < |pods| && !pods[i].terminating ==> pods[i].name in names || pods[i].name in failed
  }

  predicate NotYetDeleted(pods: seq<Pod>, names: seq<string>) {
    forall i :: 0 <= i < |pods| && pods[i].name in names ==> pods[i].deletes == 0
  }

  predicate DistinctStrings(names: seq<string>) {
    forall i, j :: 0 <= i < j < |names| ==> names[i] != names[j]
  }

  ghost predicate AllSound(todo: seq<Action>) {
    forall a :: a in todo ==> Sound(a)
  }

  /** A status about to be written: everything but the status is as read. */
  predicate Prepared(c: Cluster, k: string, s: Session) {
    && s.uid < c.nextUid
    && s.finalizer && !s.deleting && TimersSet(s.status) && s.status.namespace == NamespaceOf(k)
    && k in c.sessions && c.sessions[k].uid == s.uid && c.sessions[k].finalizer
    && (s.version == c.sessions[k].version ==>
          && c.sessions[k] == s.(status := c.sessions[k].status)
          && (TimersSet(c.sessions[k].status) ==> SameTimers(c.sessions[k].status, s.status)))
    && s.version <= c.sessions[k].version
  }

  ghost predicate LocalOk(c: Cluster, k: string, l: Local) {
    match l
    case Idle(_) => true
    case Begin => true
    case Cleanup(s) => Pinned(c, k, s) && s.deleting
    case DropFinalizer(s, failed) => Pinned(c, k, s) && s.deleting && (!failed ==> NamespaceGone(c, k))
    case PutFinalizer(s) => Snapshot(c, k, s) && !s.finalizer && !s.deleting
    case FetchSpace(s) => Pinned(c, k, s) && !s.deleting
    case Expire(s) => Pinned(c, k, s) && !s.deleting && Expired(s, c.clock)
    case Setup(s, space, todo) =>
      Pinned(c, k, s) && !s.deleting && AllSound(todo) && Ordered(space, todo) && SetUp(c, k, s, space, todo)
    case ListForRestart(s) => Pinned(c, k, s) && !s.deleting && RestartPending(s)
    case DeletePods(s, pods, failed) =>
      && Pinned(c, k, s) && !s.deleting && RestartPending(s)
      && LiveWithin(PodsAt(c, k), pods, failed) && NotYetDeleted(PodsAt(c, k), pods) && DistinctStrings(pods)
    case MarkHandled(s, failed) =>
      Pinned(c, k, s) && !s.deleting && RestartPending(s) && LiveWithin(PodsAt(c, k), [], failed)
    case RestartStatus(s) => Pinned(c, k, s) && !s.deleting
    case ListForWork(s, space) => Pinned(c, k, s) && !s.deleting && SetUp(c, k, s, space, [])
    case Work(s, space, _, todo) =>
      && Pinned(c, k, s) && !s.deleting && AllSound(todo) && SetUp(c, k, s, space, [])
      && (forall a :: a in todo ==> !a.EnsureNamespace?)
    case ListForStatus(s, _, _, _) => Pinned(c, k, s) && !s.deleting
    case WriteStatus(s) => Prepared(c, k, s)
  }

  ghost predicate Ok(c: Cluster, k: string, l: Local) {
    SessionOk(c, k) && NamespaceOk(c, k) && LocalOk(c, k, l)
  }

  // ------------------------------------------------------------------------- framing

  predicate SameAt(a: Cluster, b: Cluster, k: string) {
    && (k in a.sessions <==> k in b.sessions)
    && (k in a.sessions ==> a.sessions[k] == b.sessions[k])
    && NamespaceAt(a, k) == NamespaceAt(b, k)
  }

  /** A step elsewhere, or a change of templates or clock, keeps session k in order. */
  lemma OkElsewhere(a: Cluster, b: Cluster, k: string, l: Local)
    requires Ok(a, k, l) && SameAt(a, b, k)
    requires a.nextUid <= b.nextUid && a.leaked <= b.leaked && a.clock <= b.clock
    ensures Ok(b, k, l)
  {
    assert PodsAt(a, k) == PodsAt(b, k);
    if NamespaceAt(a, k).Some? {
      var n := NamespaceAt(a, k).value;
      assert PodsOk(n.pods, b.nextUid) by {
        forall i | 0 <= i < |n.pods| ensures PodOk(n.pods[i], b.nextUid) {
          assert PodOk(n.pods[i], a.nextUid);
        }
      }
    }
  }
}
