/** What one reconcile does, in each state a session can be in, when none of its calls fails. */
module Outcomes {
  import opened Common
  import opened Names
  import opened Resources
  import opened Objects
  import opened Actions
  import opened Plans
  import opened Protocol
  import opened Invariants
  import opened Preservation
  import opened Attempts
  import opened Convergence
  import opened Settling
  import opened AfterReconcile
  import opened Workload

  // ------------------------------------------------------------- on the way in and out

  /** A session without the finalizer gets it, and nothing else happens. */
  lemma FinalizerAdded(cfg: Config, k: string, c: Cluster, turns: nat -> Turn)
    requires AllDone(turns) && k in c.sessions && !c.sessions[k].deleting && !c.sessions[k].finalizer
    ensures var (l, d, _) := Drive(cfg, k, Begin, c, turns, 0);
      var s := c.sessions[k];
      && l == Idle(Stop)
      && d == c.(sessions := c.sessions[k := s.(finalizer := true, version := s.version + 1)])
  {
    var s := c.sessions[k];
    var (l1, c1) := Step(cfg, k, PutFinalizer(s), c, turns(1).outcome);
    DriveStep(cfg, k, Begin, c, turns, 0);
    DriveStep(cfg, k, PutFinalizer(s), c, turns, 1);
    DriveStep(cfg, k, l1, c1, turns, 2);
  }

  /** The last call of a deletion. */
  lemma Released(cfg: Config, k: string, s: Session, failed: bool, c: Cluster, turns: nat -> Turn, i: nat)
    requires Quiet(turns) && turns(i).outcome.Done?
    requires k in c.sessions && c.sessions[k] == s && s.deleting
    ensures var (l, d, _) := Drive(cfg, k, DropFinalizer(s, failed), c, turns, i);
      && l == Idle(Stop) && d.sessions == c.sessions - {k} && d.namespaces == c.namespaces
  {
    var (l1, c1) := Step(cfg, k, DropFinalizer(s, failed), c, turns(i).outcome);
    DriveStep(cfg, k, DropFinalizer(s, failed), c, turns, i);
    DriveStep(cfg, k, l1, c1, turns, i + 1);
  }

  /** A session being deleted leaves the store, whatever its namespace delete reports; unless
      that call was refused, the namespace is then absent or terminating. */
  lemma DeletionCompletes(cfg: Config, k: string, c: Cluster, turns: nat -> Turn)
    requires Quiet(turns) && turns(0).outcome.Done? && turns(2).outcome.Done?
    requires k in c.sessions && c.sessions[k].deleting && c.sessions[k].finalizer
    ensures var (l, d, _) := Drive(cfg, k, Begin, c, turns, 0);
      && l == Idle(Stop) && d.sessions == c.sessions - {k}
      && PodsAt(d, k) == PodsAt(c, k)
      && (!turns(1).outcome.Refused? ==> NamespaceGone(d, k))
      && (turns(1).outcome.Refused? ==> NamespaceAt(d, k) == NamespaceAt(c, k))
  {
    var s := c.sessions[k];
    var (l1, c1) := Step(cfg, k, Cleanup(s), c, turns(1).outcome);
    DriveStep(cfg, k, Begin, c, turns, 0);
    DriveStep(cfg, k, Cleanup(s), c, turns, 1);
    Released(cfg, k, s, l1.deleteFailed, c1, turns, 2);
  }

  /** A session past its expiry is marked deleted and nothing is built for it. */
  lemma ExpiredMarked(cfg: Config, k: string, c: Cluster, turns: nat -> Turn)
    requires AllDone(turns) && k in c.sessions && c.sessions[k].finalizer && !c.sessions[k].deleting
    requires c.sessions[k].status.expiredTime.Some? && c.clock > c.sessions[k].status.expiredTime.value
    requires c.sessions[k].spaceRef in c.spaces
    ensures var (l, d, _) := Drive(cfg, k, Begin, c, turns, 0);
      var s := c.sessions[k];
      && l == Idle(Stop)
      && d == c.(sessions := c.sessions[k := s.(deleting := true, version := s.version + 1)])
  {
    var s := c.sessions[k];
    var (l3, c3) := Step(cfg, k, Expire(s), c, turns(2).outcome);
    DriveStep(cfg, k, Begin, c, turns, 0);
    DriveStep(cfg, k, FetchSpace(s), c, turns, 1);
    DriveStep(cfg, k, Expire(s), c, turns, 2);
    DriveStep(cfg, k, l3, c3, turns, 3);
  }

  // ---------------------------------------------------------------------- a restart

  /** The same pods in the same order, each terminating if it was or if it is listed. */
  predicate Stopped(before: seq<Pod>, after: seq<Pod>, names: seq<string>) {
    && |after| == |before|
    && forall i :: 0 <= i < |before| ==>
         && after[i].name == before[i].name
         && (after[i].terminating <==> before[i].terminating || before[i].name in names)
  }

  lemma DeleteOne(c: Cluster, k: string, name: string, o: Outcome)
    requires o.Done?
    ensures var (d, ok) := DeletePod(c, k, name, o);
      && ok && d.sessions == c.sessions && d.nextUid == c.nextUid && Stopped(PodsAt(c, k), PodsAt(d, k), [name])
  {
  }

  lemma StoppedMore(a: seq<Pod>, b: seq<Pod>, c: seq<Pod>, names: seq<string>)
    requires names != [] && Stopped(a, b, [names[0]]) && Stopped(b, c, names[1..])
    ensures Stopped(a, c, names)
  {
    assert names == [names[0]] + names[1..];
  }

  /** With no failing call every listed pod is deleted. */
  lemma {:induction false} AllDeleted(cfg: Config, k: string, s: Session, names: seq<string>, c: Cluster,
                                      turns: nat -> Turn, i: nat)
    returns (d: Cluster, j: nat)
    requires AllDone(turns)
    ensures d.sessions == c.sessions && d.nextUid == c.nextUid && Stopped(PodsAt(c, k), PodsAt(d, k), names)
    ensures Drive(cfg, k, Deleting(s, names, {}), c, turns, i) == Drive(cfg, k, MarkHandled(s, {}), d, turns, j)
    decreases |names|
  {
    if names == [] {
      return c, i;
    }
    var c1 := DeletePod(c, k, names[0], turns(i).outcome).0;
    DeleteOne(c, k, names[0], turns(i).outcome);
    DriveStep(cfg, k, DeletePods(s, names, {}), c, turns, i);
    d, j := AllDeleted(cfg, k, s, names[1..], c1, turns, i + 1);
    StoppedMore(PodsAt(c, k), PodsAt(c1, k), PodsAt(d, k), names);
  }

  /** The request is recorded as handled, the session reports the restart, and no pod is left alive. */
  predicate Restarted(c: Cluster, d: Cluster, k: string)
    requires k in c.sessions
  {
    && k in d.sessions
    && d.sessions[k].handled == c.sessions[k].requested == d.sessions[k].requested
    && d.sessions[k].status == c.sessions[k].status.(phase := Pending, message := Restarting)
    && |PodsAt(d, k)| == |PodsAt(c, k)|
    && forall i :: 0 <= i < |PodsAt(d, k)| ==>
         PodsAt(d, k)[i].terminating && PodsAt(d, k)[i].name == PodsAt(c, k)[i].name
  }

  lemma SetupKeepsPods(cfg: Config, k: string, space: Space, who: Birth, c: Cluster, d: Cluster)
    requires Through(SetupPlan(cfg, space), who, Erase(NamespaceAt(c, k)), Erase(NamespaceAt(d, k)))
    ensures EraseDraws(PodsAt(d, k)) == EraseDraws(PodsAt(c, k))
  {
    var plan := SetupPlan(cfg, space);
    assert plan[0] == EnsureNamespace;
    EndPodsOf(plan, who, Erase(NamespaceAt(c, k)), EraseDraws(PodsAt(c, k)));
    forall a | a in plan ensures !a.CreatePod? {
      SetupCreatesNone(cfg, space, a);
    }
    ExecPodsIdle(plan, who, EraseDraws(PodsAt(c, k)));
  }

  lemma SamePods(a: seq<Pod>, b: seq<Pod>)
    requires EraseDraws(b) == EraseDraws(a)
    ensures Stopped(a, b, [])
  {
    assert |EraseDraws(a)| == |a| && |EraseDraws(b)| == |b|;
    forall i | 0 <= i < |a| ensures b[i].name == a[i].name && b[i].terminating == a[i].terminating {
      assert EraseDraws(b)[i] == EraseDraws(a)[i];
    }
  }

  lemma AllStopped(before: seq<Pod>, mid: seq<Pod>, after: seq<Pod>)
    requires Stopped(before, mid, []) && Stopped(mid, after, LiveNames(mid))
    ensures |after| == |before|
    ensures forall i :: 0 <= i < |after| ==> after[i].terminating && after[i].name == before[i].name
  {
    LiveNamesAre(mid);
  }

  /** The two session writes that end a restart. */
  lemma RestartWrites(cfg: Config, k: string, c: Cluster, turns: nat -> Turn, i: nat)
    requires AllDone(turns) && SessionOk(c, k) && k in c.sessions
    requires c.sessions[k].finalizer && !c.sessions[k].deleting
    ensures var (l, d, _) := Drive(cfg, k, MarkHandled(c.sessions[k], {}), c, turns, i);
      && l == Idle(After(2 * SECOND)) && NamespaceAt(d, k) == NamespaceAt(c, k)
      && k in d.sessions
      && d.sessions[k].handled == c.sessions[k].requested == d.sessions[k].requested
      && d.sessions[k].status == c.sessions[k].status.(phase := Pending, message := Restarting)
  {
    var l0 := MarkHandled(c.sessions[k], {});
    var (l1, c1) := Step(cfg, k, l0, c, turns(i).outcome);
    DriveStep(cfg, k, l0, c, turns, i);
    DriveReport(cfg, k, l1.s, c1, turns, i + 1);
  }

  /** The session asks for a restart that was not handled yet, and nothing rules it out. */
  predicate RestartAsked(c: Cluster, k: string) {
    k in c.sessions &&
    var s := c.sessions[k];
    s.finalizer && !s.deleting && !Expired(s, c.clock) && s.spaceRef in c.spaces
    && s.requested != "" && s.requested != s.handled
  }

  /** From the listing on: every pod is deleted and the request recorded. */
  lemma RestartRuns(cfg: Config, k: string, c: Cluster, d: Cluster, turns: nat -> Turn, i: nat)
    requires AllDone(turns) && SessionOk(c, k) && RestartAsked(c, k) && SameButNamespace(c, d, k)
    requires EraseDraws(PodsAt(d, k)) == EraseDraws(PodsAt(c, k))
    ensures var (l, e, _) := Drive(cfg, k, ListForRestart(c.sessions[k]), d, turns, i);
      l == Idle(After(2 * SECOND)) && Restarted(c, e, k)
  {
    var s := c.sessions[k];
    DriveStep(cfg, k, ListForRestart(s), d, turns, i);
    var e, j := AllDeleted(cfg, k, s, LiveNames(PodsAt(d, k)), d, turns, i + 1);
    SamePods(PodsAt(c, k), PodsAt(d, k));
    AllStopped(PodsAt(c, k), PodsAt(d, k), PodsAt(e, k));
    RestartWrites(cfg, k, e, turns, j);
  }

  // ------------------------------------------------------------ a live reconcile

  predicate Foreign(objects: map<Key, Obj>, key: Key) {
    key in objects && objects[key].owner.Some? && objects[key].owner.value.Foreign?
  }

  /** Everything one service has written for it: its key is not somebody else's, and already
      taken when nothing new can be created. */
  predicate ServiceReady(space: Space, s: LabService, n: Namespace) {
    && (s.exposure == Some("HTTP") && !space.internalOnly ==> s.ports != [])
    && (s.egress != [] ==> !Foreign(n.objects, EgressKey(s.name)))
    && (n.terminating ==>
          && HasPod(n.pods, s.name)
          && Key(KService, s.name) in n.objects
          && (s.egress != [] ==> EgressKey(s.name) in n.objects)
          && (s.exposure == Some("HTTP") && !space.internalOnly ==> Key(KRoute, s.name) in n.objects))
  }

  predicate DesktopReady(k: string, n: Namespace) {
    && !Foreign(n.objects, Key(KService, WorkspaceName(k))) && !Foreign(n.objects, Key(KRoute, WorkspaceRouteName(k)))
    && (n.terminating ==>
          && HasPod(n.pods, WorkspaceName(k))
          && Key(KService, WorkspaceName(k)) in n.objects && Key(KRoute, WorkspaceRouteName(k)) in n.objects)
  }

  predicate SetupReady(cfg: Config, space: Space, n: Namespace) {
    && !Foreign(n.objects, BASELINE)
    && (n.terminating ==>
          && BASELINE in n.objects
          && (cfg.pullConfig != "" ==> PULL_SECRET in n.objects)
          && (space.resources != Requirements(map[], map[]) ==> QUOTA in n.objects && LIMIT_RANGE in n.objects))
  }

  lemma ClearConcat(a: seq<Action>, b: seq<Action>, n: Namespace)
    ensures Clear(a + b, n) <==> Clear(a, n) && Clear(b, n)
  {
    if Clear(a + b, n) {
      forall x | x in a ensures ClearFor(x, n) { assert x in a + b; }
      forall x | x in b ensures ClearFor(x, n) { assert x in a + b; }
    }
  }

  lemma ClearOne(a: Action, n: Namespace)
    ensures Clear([a], n) <==> ClearFor(a, n)
  {
    assert a in [a];
  }

  lemma FiveClear(a: seq<Action>, b: seq<Action>, c: seq<Action>, d: seq<Action>, e: seq<Action>, n: Namespace)
    ensures Clear(a + b + c + d + e, n) <==> Clear(a, n) && Clear(b, n) && Clear(c, n) && Clear(d, n) && Clear(e, n)
  {
    ClearConcat(a + b + c + d, e, n);
    ClearConcat(a + b + c, d, n);
    ClearConcat(a + b, c, n);
    ClearConcat(a, b, n);
  }

  lemma IsolationClear(space: Space, n: Namespace)
    ensures Clear([EnsureNamespace], n)
    ensures Clear([Drop(LEGACY_POLICY), BaselineAction(space)], n)
      <==> !Foreign(n.objects, BASELINE) && (n.terminating ==> BASELINE in n.objects)
  {
    ClearConcat([Drop(LEGACY_POLICY)], [BaselineAction(space)], n);
    assert [Drop(LEGACY_POLICY)] + [BaselineAction(space)] == [Drop(LEGACY_POLICY), BaselineAction(space)];
    ClearOne(BaselineAction(space), n);
  }

  lemma SetupClear(cfg: Config, space: Space, n: Namespace)
    ensures Clear(SetupPlan(cfg, space), n) <==> SetupReady(cfg, space, n)
  {
    FiveClear([EnsureNamespace], PullSecretActions(cfg), QuotaActions(space), LimitRangeActions(space),
              [Drop(LEGACY_POLICY), BaselineAction(space)], n);
    IsolationClear(space, n);
    SettingsClear(cfg, space, n);
  }

  lemma SettingsClear(cfg: Config, space: Space, n: Namespace)
    ensures Clear(PullSecretActions(cfg), n) <==> (n.terminating && cfg.pullConfig != "" ==> PULL_SECRET in n.objects)
    ensures Clear(QuotaActions(space), n) <==> (n.terminating && Capped(space.resources) ==> QUOTA in n.objects)
    ensures Clear(LimitRangeActions(space), n)
      <==> (n.terminating && Capped(space.resources) ==> LIMIT_RANGE in n.objects)
  {
    ClearOne(Put(PULL_SECRET, OnCreate, SecretBody(cfg.pullConfig)), n);
    ClearOne(QuotaAction(space), n);
    ClearOne(LimitRangeAction(), n);
  }

  lemma SetupAdmitted(cfg: Config, space: Space, who: Birth, ns: Option<Namespace>)
    ensures Admissible(SetupPlan(cfg, space), who, ns)
      <==> SetupReady(cfg, space, Apply(EnsureNamespace, who, 0, ns).value)
  {
    var setup := SetupPlan(cfg, space);
    assert setup[0] == EnsureNamespace;
    PlanNoClash(cfg, "", "", space, []);
    assert forall a :: a in setup ==> a in FullPlan(cfg, "", "", space, []);
    AdmissibleFromStart(setup, who, ns);
    SetupClear(cfg, space, Apply(EnsureNamespace, who, 0, ns).value);
  }

  /** The namespace as it is, or fresh. */
  function Beginning(c: Cluster, k: string): Namespace
    requires k in c.sessions
  {
    if NamespaceAt(c, k).Some? then NamespaceAt(c, k).value else Namespace(false, c.sessions[k].uid, [], map[])
  }

  lemma AskedToSetup(cfg: Config, k: string, c: Cluster, turns: nat -> Turn)
    requires AllDone(turns) && RestartAsked(c, k)
    ensures var s := c.sessions[k];
      var space := c.spaces[s.spaceRef];
      Drive(cfg, k, Begin, c, turns, 0) == Drive(cfg, k, SettingUp(cfg, s, space, SetupPlan(cfg, space)), c, turns, 2)
  {
    DriveStep(cfg, k, Begin, c, turns, 0);
    DriveStep(cfg, k, FetchSpace(c.sessions[k]), c, turns, 1);
  }

  lemma AskedSetup(cfg: Config, k: string, c: Cluster, space: Space, setup: seq<Action>, turns: nat -> Turn, i: nat)
    requires AllDone(turns) && SessionOk(c, k) && RestartAsked(c, k)
    requires space == c.spaces[c.sessions[k].spaceRef] && setup == SetupPlan(cfg, space)
    ensures var (l, d, _) := Drive(cfg, k, SettingUp(cfg, c.sessions[k], space, setup), c, turns, i);
      if Admissible(setup, WhoOf(c.sessions[k], space), Erase(NamespaceAt(c, k)))
      then l == Idle(After(2 * SECOND)) && Restarted(c, d, k)
      else l == Idle(Error) && d.sessions == c.sessions
  {
    var s := c.sessions[k];
    var p, stopped := DriveSetup(cfg, k, s, space, setup, c, turns, i);
    if !stopped {
      assert setup[..p.done] == setup;
      SetupKeepsPods(cfg, k, space, WhoOf(s, space), c, p.cluster);
      RestartRuns(cfg, k, c, p.cluster, turns, p.turn);
    }
  }

  /** A requested restart is carried out by the first reconcile whose setup goes through: all
      pods are on their way out, the request is recorded, and the session says so. Otherwise
      the reconcile fails and the request stays pending. */
  lemma RestartCompletes(cfg: Config, k: string, c: Cluster, turns: nat -> Turn)
    requires AllDone(turns) && SessionOk(c, k) && RestartAsked(c, k)
    ensures var (l, d, _) := Drive(cfg, k, Begin, c, turns, 0);
      if SetupReady(cfg, c.spaces[c.sessions[k].spaceRef], Beginning(c, k))
      then l == Idle(After(2 * SECOND)) && Restarted(c, d, k)
      else l == Idle(Error) && d.sessions == c.sessions
  {
    var s := c.sessions[k];
    var space := c.spaces[s.spaceRef];
    AskedToSetup(cfg, k, c, turns);
    SetupAdmitted(cfg, space, WhoOf(s, space), Erase(NamespaceAt(c, k)));
    AskedSetup(cfg, k, c, space, SetupPlan(cfg, space), turns, 2);
  }

  lemma DesktopClear(cfg: Config, k: string, space: Space, n: Namespace)
    ensures Clear(WorkspaceActions(cfg, k, space), n) <==> cfg.validSelector(space.selector) && DesktopReady(k, n)
  {
    var acts := WorkspaceActions(cfg, k, space);
    assert acts[0] in acts && acts[1] in acts && acts[2] in acts && acts[3] in acts;
    assert forall a :: a in acts ==> a == acts[0] || a == acts[1] || a == acts[2] || a == acts[3];
  }

  lemma ServiceClear(cfg: Config, k: string, userId: string, space: Space, s: LabService, n: Namespace)
    ensures Clear(ServiceActions(cfg, k, userId, space, s), n) <==> ServiceReady(space, s, n)
  {
    var own, route := [CreatePod(ServicePod(k, s)), EgressAction(s), ServiceAction(s)],
      RouteActions(cfg, userId, space, s);
    ClearConcat(own, route, n);
    assert own[0] in own && own[1] in own && own[2] in own;
    if route != [] {
      ClearOne(route[0], n);
      assert route == [route[0]];
    }
  }

  lemma {:induction false} ServicesClear(cfg: Config, k: string, userId: string, space: Space, svcs: seq<LabService>,
                                         n: Namespace)
    ensures Clear(AllServiceActions(cfg, k, userId, space, svcs), n)
      <==> forall s :: s in svcs ==> ServiceReady(space, s, n)
    decreases |svcs|
  {
    if svcs != [] {
      ClearConcat(ServiceActions(cfg, k, userId, space, svcs[0]), AllServiceActions(cfg, k, userId, space, svcs[1..]),
                  n);
      ServiceClear(cfg, k, userId, space, svcs[0], n);
      ServicesClear(cfg, k, userId, space, svcs[1..], n);
      assert svcs == [svcs[0]] + svcs[1..];
    }
  }

  lemma PlanClear(cfg: Config, k: string, userId: string, space: Space, svcs: seq<LabService>, n: Namespace)
    ensures Clear(FullPlan(cfg, k, userId, space, svcs), n)
      <==> && cfg.validSelector(space.selector) && SetupReady(cfg, space, n) && DesktopReady(k, n)
           && forall s :: s in svcs ==> ServiceReady(space, s, n)
  {
    ClearConcat(SetupPlan(cfg, space), WorkPlan(cfg, k, userId, space, svcs), n);
    ClearConcat(WorkspaceActions(cfg, k, space), AllServiceActions(cfg, k, userId, space, svcs), n);
    SetupClear(cfg, space, n);
    DesktopClear(cfg, k, space, n);
    ServicesClear(cfg, k, userId, space, svcs, n);
  }

  /** When no call fails by itself, a live reconcile succeeds exactly when the selector is
      valid, no HTTP service of a space with outside access lacks ports, none of the objects
      it controls belongs to an owner of another kind or name, and, in a namespace on its way
      out, everything is there already. */
  lemma SucceedsWhen(cfg: Config, k: string, c: Cluster, turns: nat -> Turn)
    requires Live(c, k) && DistinctNames(c.services) && AllDone(turns)
    ensures var space, n := SpaceOf(c, k), StartOf(c, k);
      Succeeded(Drive(cfg, k, Begin, c, turns, 0).0)
      <==> && cfg.validSelector(space.selector) && SetupReady(cfg, space, n) && DesktopReady(k, n)
           && forall s :: s in ServicesOf(cfg, c, k) ==> ServiceReady(space, s, n)
  {
    SucceedsIff(cfg, k, c, turns);
    PlanClear(cfg, k, c.sessions[k].userId, SpaceOf(c, k), ServicesOf(cfg, c, k), StartOf(c, k));
  }
}
