/**
 * The namespace-level calls of one reconcile: what each call writes, when the server
 * turns it down, and the ordered plans a reconcile follows.
 */
module Actions {
  import opened Common
  import opened Egress
  import opened Resources
  import opened Names
  import opened Objects

  /** Controlled: the controller reference is (re)set, which fails on a foreign owner.
      OnCreate: the reference is only written when the object is created. */
  datatype Ownership = Controlled | OnCreate | Unowned

  datatype PodTemplate = PodTemplate(name: string, labels: Labels, containers: seq<Container>, owned: bool,
                                     random: bool)

  /** One create-or-update, delete or create-if-absent of the plan. A read that finds its
      object and the write that follows it are one action. */
  datatype Action =
    | EnsureNamespace
    | Put(key: Key, ownership: Ownership, body: Body)
    | Drop(key: Key)
    | CreatePod(template: PodTemplate)
    | ListTasks(valid: bool)
    | PortPanic

  // ------------------------------------------------------------------ one action

  /** Only the labels of a Service are merged with what is there; the rest is replaced. */
  function MergeBody(found: Body, desired: Body): Body {
    if found.ServiceBody? && desired.ServiceBody? then desired.(labels := found.labels + desired.labels) else desired
  }

  function PutObject(uid: Uid, ownership: Ownership, body: Body, found: Option<Obj>): Obj {
    match found
    case None => Obj(if ownership.Unowned? then None else Some(Own(uid)), body)
    case Some(o) => Obj(if ownership.Controlled? then Some(Own(uid)) else o.owner, MergeBody(o.body, body))
  }

  function Lookup(objects: map<Key, Obj>, key: Key): Option<Obj> {
    if key in objects then Some(objects[key]) else None
  }

  function ApplyObjects(a: Action, uid: Uid, objects: map<Key, Obj>): map<Key, Obj> {
    match a
    case Put(key, ownership, body) => objects[key := PutObject(uid, ownership, body, Lookup(objects, key))]
    case Drop(key) => objects - {key}
    case _ => objects
  }

  function NewPod(t: PodTemplate, who: Birth, draw: nat): Pod {
    Pod(t.name, t.labels, t.containers, if t.owned then Some(Own(who.uid)) else None,
        false, FRESH_STATUS, if t.random then draw else 0, who, 0)
  }

  /** An existing pod is never touched. */
  function ApplyPods(a: Action, who: Birth, draw: nat, pods: seq<Pod>): seq<Pod> {
    if a.CreatePod? && !HasPod(pods, a.template.name) then pods + [NewPod(a.template, who, draw)] else pods
  }

  function Apply(a: Action, who: Birth, draw: nat, ns: Option<Namespace>): Option<Namespace> {
    match ns
    case None => if a.EnsureNamespace? then Some(Namespace(false, who.uid, [], map[])) else None
    case Some(n) => Some(n.(pods := ApplyPods(a, who, draw, n.pods), objects := ApplyObjects(a, who.uid, n.objects)))
  }

  predicate OwnedByOther(objects: map<Key, Obj>, key: Key) {
    key in objects && !Claimable(objects[key].owner)
  }

  /** When the server, or the client library before it, lets the call through. Nothing can
      be created in an absent or terminating namespace. */
  predicate Admits(a: Action, ns: Option<Namespace>) {
    match a
    case EnsureNamespace => true
    case Put(key, ownership, _) =>
      && ns.Some?
      && (key !in ns.value.objects ==> !ns.value.terminating)
      && (ownership.Controlled? ==> !OwnedByOther(ns.value.objects, key))
    case Drop(_) => true
    case CreatePod(t) => ns.Some? && (HasPod(ns.value.pods, t.name) || !ns.value.terminating)
    case ListTasks(valid) => valid
    case PortPanic => false
  }

  // ----------------------------------------------------------------------- plans

  const BASELINE := Key(KPolicy, "lab-baseline")
  const QUOTA := Key(KQuota, "lab-quota")
  const LIMIT_RANGE := Key(KLimitRange, "lab-defaults")
  const PULL_SECRET := Key(KSecret, "task-registry-pull")
  const LEGACY_POLICY := Key(KNetworkPolicy, "lab-isolation")

  function QuotaAction(space: Space): Action {
    Put(QUOTA, Unowned, QuotaBody(QuotaHard(space.resources)))
  }

  function LimitRangeAction(): Action {
    Put(LIMIT_RANGE, Unowned, LimitRangeBody(Requirements(LIMIT_RANGE_REQUESTS, LIMIT_RANGE_LIMITS)))
  }

  function BaselineAction(space: Space): Action {
    Put(BASELINE, Controlled, PolicyBody(BaselinePolicy(space.allowInternet)))
  }

  function PullSecretActions(cfg: Config): seq<Action> {
    if cfg.pullConfig == "" then [] else [Put(PULL_SECRET, OnCreate, SecretBody(cfg.pullConfig))]
  }

  function QuotaActions(space: Space): seq<Action> {
    if Capped(space.resources) then [QuotaAction(space)] else []
  }

  function LimitRangeActions(space: Space): seq<Action> {
    if Capped(space.resources) then [LimitRangeAction()] else []
  }

  /** Everything up to and including network isolation. */
  function SetupPlan(cfg: Config, space: Space): (r: seq<Action>)
    ensures |r| > 0
  {
    [EnsureNamespace] + PullSecretActions(cfg) + QuotaActions(space) + LimitRangeActions(space)
    + [Drop(LEGACY_POLICY), BaselineAction(space)]
  }

  function WorkspaceContainers(space: Space): seq<Container> {
    [Container("interface", WorkspaceRequirements(space.workspaceResources)), Container("workspace-guard", GUARD)]
    + (if space.workspaceType == "Termnial" then [Container("checker", Requirements(map[], map[]))] else [])
  }

  /** The desktop and its guard, and a checker only for the misspelt workspace type. */
  predicate DesktopContainers(space: Space, containers: seq<Container>) {
    && |containers| == (if space.workspaceType == "Termnial" then 3 else 2)
    && containers[0].name == "interface" && DesktopBlock(space.workspaceResources, containers[0].requirements)
    && containers[1].name == "workspace-guard" && containers[1].requirements == GUARD
    && (|containers| == 3 ==> containers[2] == Container("checker", Requirements(map[], map[])))
  }

  predicate ChallengeContainers(svc: LabService, containers: seq<Container>) {
    && |containers| == 1
    && containers[0].name == "challenge" && ServiceBlock(svc.resources, containers[0].requirements)
  }

  function WorkspaceLabels(k: string): Labels {
    map["app" := WorkspaceName(k), "ctf.school/role" := "workspace", "ctf.school/session" := k]
  }

  function WorkspacePod(k: string, space: Space): PodTemplate {
    PodTemplate(WorkspaceName(k), WorkspaceLabels(k), WorkspaceContainers(space), true, false)
  }

  function WorkspaceServiceAction(k: string): Action {
    Put(Key(KService, WorkspaceName(k)), Controlled,
        ServiceBody(map[], map["app" := WorkspaceName(k)], [Port("web", GUARD_PORT)]))
  }

  function WorkspaceRouteAction(cfg: Config, k: string): Action {
    Put(Key(KRoute, WorkspaceRouteName(k)), Controlled,
        RouteBody([WorkspaceHostname(k, cfg.Domain())], WorkspaceName(k), GUARD_PORT))
  }

  function WorkspaceActions(cfg: Config, k: string, space: Space): (r: seq<Action>)
    ensures |r| == 4
  {
    [ListTasks(cfg.validSelector(space.selector)), CreatePod(WorkspacePod(k, space)),
     WorkspaceServiceAction(k), WorkspaceRouteAction(cfg, k)]
  }

  function ServiceLabels(k: string, svc: LabService): Labels {
    map["app" := svc.name, SERVICE_LABEL := svc.name, "ctf.school/sess" := k]
  }

  function ServicePod(k: string, svc: LabService): PodTemplate {
    PodTemplate(svc.name, ServiceLabels(k, svc), [Container("challenge", ServiceRequirements(svc.resources))], false,
                svc.random)
  }

  function EgressKey(service: string): Key {
    Key(KPolicy, EgressPolicyName(service))
  }

  function EgressAction(svc: LabService): Action {
    if svc.egress == [] then Drop(EgressKey(svc.name))
    else Put(EgressKey(svc.name), Controlled, PolicyBody(ServicePolicy(svc.name, svc.egress)))
  }

  function ServiceAction(svc: LabService): Action {
    Put(Key(KService, svc.name), Unowned, ServiceBody(map["app" := svc.name], map["app" := svc.name], svc.ports))
  }

  predicate Routed(space: Space, svc: LabService) {
    !space.internalOnly && svc.exposure == Some("HTTP")
  }

  function RouteActions(cfg: Config, userId: string, space: Space, svc: LabService): seq<Action> {
    if !Routed(space, svc) then []
    else if svc.ports == [] then [PortPanic]
    else [Put(Key(KRoute, svc.name), Unowned,
              RouteBody([ServiceHostname(svc.name, userId, cfg.Domain())], svc.name, svc.ports[0].number))]
  }

  function ServiceActions(cfg: Config, k: string, userId: string, space: Space, svc: LabService): seq<Action> {
    [CreatePod(ServicePod(k, svc)), EgressAction(svc), ServiceAction(svc)] + RouteActions(cfg, userId, space, svc)
  }

  function AllServiceActions(cfg: Config, k: string, userId: string, space: Space, svcs: seq<LabService>): seq<Action> {
    if svcs == [] then []
    else ServiceActions(cfg, k, userId, space, svcs[0]) + AllServiceActions(cfg, k, userId, space, svcs[1..])
  }

  function WorkPlan(cfg: Config, k: string, userId: string, space: Space, svcs: seq<LabService>): (r: seq<Action>)
    ensures |r| > 0
  {
    WorkspaceActions(cfg, k, space) + AllServiceActions(cfg, k, userId, space, svcs)
  }

  function FullPlan(cfg: Config, k: string, userId: string, space: Space, svcs: seq<LabService>): seq<Action> {
    SetupPlan(cfg, space) + WorkPlan(cfg, k, userId, space, svcs)
  }

  // ------------------------------------------------------------------- executions

  function ExecObjects(acts: seq<Action>, uid: Uid, objects: map<Key, Obj>): map<Key, Obj> {
    if acts == [] then objects else ExecObjects(acts[1..], uid, ApplyObjects(acts[0], uid, objects))
  }

  function ExecPods(acts: seq<Action>, who: Birth, pods: seq<Pod>): seq<Pod> {
    if acts == [] then pods else ExecPods(acts[1..], who, ApplyPods(acts[0], who, 0, pods))
  }

  /** Runs the actions in order, with every random draw taken as zero. */
  function Exec(acts: seq<Action>, who: Birth, ns: Option<Namespace>): Option<Namespace> {
    if acts == [] then ns else Exec(acts[1..], who, Apply(acts[0], who, 0, ns))
  }

  lemma {:induction false} ExecParts(acts: seq<Action>, who: Birth, n: Namespace)
    ensures Exec(acts, who, Some(n))
         == Some(n.(pods := ExecPods(acts, who, n.pods), objects := ExecObjects(acts, who.uid, n.objects)))
    decreases |acts|
  {
    if acts != [] {
      ExecParts(acts[1..], who, Apply(acts[0], who, 0, Some(n)).value);
    }
  }

  lemma {:induction false} ExecConcat(a: seq<Action>, b: seq<Action>, who: Birth, ns: Option<Namespace>)
    ensures Exec(a + b, who, ns) == Exec(b, who, Exec(a, who, ns))
    decreases |a|
  {
    if a == [] {
      assert a + b == b;
    } else {
      assert (a + b)[1..] == a[1..] + b;
      ExecConcat(a[1..], b, who, Apply(a[0], who, 0, ns));
    }
  }

  lemma {:induction false} ExecObjectsConcat(a: seq<Action>, b: seq<Action>, uid: Uid, m: map<Key, Obj>)
    ensures ExecObjects(a + b, uid, m) == ExecObjects(b, uid, ExecObjects(a, uid, m))
    decreases |a|
  {
    if a == [] {
      assert a + b == b;
    } else {
      assert (a + b)[1..] == a[1..] + b;
      ExecObjectsConcat(a[1..], b, uid, ApplyObjects(a[0], uid, m));
    }
  }

  lemma {:induction false} ExecPodsConcat(a: seq<Action>, b: seq<Action>, who: Birth, pods: seq<Pod>)
    ensures ExecPods(a + b, who, pods) == ExecPods(b, who, ExecPods(a, who, pods))
    decreases |a|
  {
    if a == [] {
      assert a + b == b;
    } else {
      assert (a + b)[1..] == a[1..] + b;
      ExecPodsConcat(a[1..], b, who, ApplyPods(a[0], who, 0, pods));
    }
  }

  // ------------------------------------------- repeating part of a plan changes nothing

  predicate Writes(a: Action, key: Key) {
    (a.Put? || a.Drop?) && a.key == key
  }

  /** No key is written both with and without the create-only ownership. */
  predicate Matched(a: Action, b: Action) {
    a.Put? && b.Put? && a.key == b.key ==> (a.ownership.OnCreate? <==> b.ownership.OnCreate?)
  }

  predicate AllMatched(acts: seq<Action>) {
    forall a, b :: a in acts && b in acts ==> Matched(a, b)
  }

  /** What an action does to one key. */
  function Effect(a: Action, uid: Uid, key: Key, found: Option<Obj>): Option<Obj> {
    if !Writes(a, key) then found
    else if a.Put? then Some(PutObject(uid, a.ownership, a.body, found))
    else None
  }

  lemma ApplyAt(a: Action, uid: Uid, m: map<Key, Obj>, key: Key)
    ensures Lookup(ApplyObjects(a, uid, m), key) == Effect(a, uid, key, Lookup(m, key))
  {
  }

  lemma SameObjects(a: map<Key, Obj>, b: map<Key, Obj>)
    requires forall key :: Lookup(a, key) == Lookup(b, key)
    ensures a == b
  {
    forall key ensures key in a <==> key in b
               ensures key in a ==> a[key] == b[key]
    {
      assert Lookup(a, key) == Lookup(b, key);
    }
  }

  lemma EffectOverwrite(a: Action, b: Action, uid: Uid, key: Key, found: Option<Obj>)
    requires Matched(a, b)
    ensures Effect(b, uid, key, Effect(a, uid, key, Effect(b, uid, key, found)))
         == Effect(b, uid, key, Effect(a, uid, key, found))
  {
    if b.Put? && b.key == key && b.body.ServiceBody? {
      var l := if found.Some? && found.value.body.ServiceBody? then found.value.body.labels else map[];
      var la := if Writes(a, key) && a.Put? && a.body.ServiceBody? then a.body.labels else map[];
      LabelsOverwrite(l, la, b.body.labels);
      LabelsOverwrite(map[], la, b.body.labels);
      assert map[] + b.body.labels == b.body.labels && map[] + la == la;
      assert l + b.body.labels + map[] == l + b.body.labels;
      assert b.body.labels + map[] == b.body.labels && l + map[] == l;
    }
  }

  /** An earlier run of an action leaves no trace once the action runs again. */
  lemma Overwrite(a: Action, b: Action, uid: Uid, m: map<Key, Obj>)
    requires Matched(a, b)
    ensures ApplyObjects(b, uid, ApplyObjects(a, uid, ApplyObjects(b, uid, m)))
         == ApplyObjects(b, uid, ApplyObjects(a, uid, m))
  {
    var m1 := ApplyObjects(b, uid, m);
    var m2 := ApplyObjects(a, uid, m1);
    var n1 := ApplyObjects(a, uid, m);
    forall key ensures Lookup(ApplyObjects(b, uid, m2), key) == Lookup(ApplyObjects(b, uid, n1), key) {
      ApplyAt(b, uid, m, key);
      ApplyAt(a, uid, m1, key);
      ApplyAt(b, uid, m2, key);
      ApplyAt(a, uid, m, key);
      ApplyAt(b, uid, n1, key);
      EffectOverwrite(a, b, uid, key, Lookup(m, key));
    }
    SameObjects(ApplyObjects(b, uid, m2), ApplyObjects(b, uid, n1));
  }

  lemma LabelsOverwrite(l: Labels, a: Labels, b: Labels)
    ensures l + b + a + b == l + a + b
  {
  }

  lemma {:induction false} Absorb(b: Action, w: seq<Action>, uid: Uid, m: map<Key, Obj>)
    requires forall a :: a in w ==> Matched(a, b)
    ensures ExecObjects([b] + w + [b], uid, m) == ExecObjects(w + [b], uid, m)
    decreases |w|
  {
    if w == [] {
      assert [b] + w + [b] == [b, b] && w + [b] == [b];
      assert [b, b][1..] == [b] && [b][1..] == [];
      Overwrite(ListTasks(true), b, uid, m);
    } else {
      var a, rest := w[0], w[1..];
      assert ([b] + w + [b])[1..] == w + [b] && (w + [b])[1..] == rest + [b];
      assert ([b] + rest + [b])[1..] == rest + [b];
      var ab := ApplyObjects(a, uid, m);
      var bab := ApplyObjects(a, uid, ApplyObjects(b, uid, m));
      Absorb(b, rest, uid, ab);
      Absorb(b, rest, uid, bab);
      Overwrite(a, b, uid, m);
    }
  }

  /** Any actions of a plan, in any order, run before the plan leave no trace in the
      objects the plan produces. */
  lemma {:induction false} AbsorbAll(q: seq<Action>, p: seq<Action>, uid: Uid, m: map<Key, Obj>)
    requires AllMatched(p) && forall a :: a in q ==> a in p
    ensures ExecObjects(q + p, uid, m) == ExecObjects(p, uid, m)
    decreases |q|
  {
    if q == [] {
      assert q + p == p;
    } else {
      var front, b := q[..|q| - 1], q[|q| - 1];
      assert b in q;
      var i :| 0 <= i < |p| && p[i] == b;
      var w, rest := p[..i], p[i + 1..];
      assert p == (w + [b]) + rest;
      assert q + p == front + (([b] + w + [b]) + rest);
      assert front + p == front + ((w + [b]) + rest);
      var s := ExecObjects(front, uid, m);
      ExecObjectsConcat(front, ([b] + w + [b]) + rest, uid, m);
      ExecObjectsConcat(front, (w + [b]) + rest, uid, m);
      ExecObjectsConcat([b] + w + [b], rest, uid, s);
      ExecObjectsConcat(w + [b], rest, uid, s);
      Absorb(b, w, uid, s);
      AbsorbAll(front, p, uid, m);
    }
  }

  lemma {:induction false} ExecPodsKeeps(acts: seq<Action>, who: Birth, pods: seq<Pod>)
    ensures pods <= ExecPods(acts, who, pods)
    ensures forall a :: a in acts && a.CreatePod? ==> HasPod(ExecPods(acts, who, pods), a.template.name)
    decreases |acts|
  {
    if acts != [] {
      var next := ApplyPods(acts[0], who, 0, pods);
      ExecPodsKeeps(acts[1..], who, next);
      var end := ExecPods(acts, who, pods);
      assert pods <= next;
      if acts[0].CreatePod? {
        var i :| 0 <= i < |next| && next[i].name == acts[0].template.name;
        assert end[i] == next[i];
      }
    }
  }

  lemma {:induction false} ExecPodsIdle(acts: seq<Action>, who: Birth, pods: seq<Pod>)
    requires forall a :: a in acts && a.CreatePod? ==> HasPod(pods, a.template.name)
    ensures ExecPods(acts, who, pods) == pods
    decreases |acts|
  {
    if acts != [] {
      ExecPodsIdle(acts[1..], who, pods);
    }
  }

  /** Running a prefix of a plan and then the whole plan creates the same pods in the same order. */
  lemma PodsAbsorb(p: seq<Action>, j: nat, who: Birth, pods: seq<Pod>)
    requires j <= |p|
    ensures ExecPods(p, who, ExecPods(p[..j], who, pods)) == ExecPods(p, who, pods)
  {
    var mid := ExecPods(p[..j], who, pods);
    assert p == p[..j] + p[j..];
    ExecPodsConcat(p[..j], p[j..], who, pods);
    ExecPodsConcat(p[..j], p[j..], who, mid);
    ExecPodsKeeps(p[..j], who, pods);
    ExecPodsIdle(p[..j], who, mid);
  }

  /** A plan that was cut anywhere and then run in full gives what one full run gives. */
  lemma PlanAbsorbsPrefix(p: seq<Action>, j: nat, who: Birth, ns: Option<Namespace>)
    requires j <= |p| && p != [] && p[0].EnsureNamespace? && AllMatched(p)
    ensures Exec(p, who, Exec(p[..j], who, ns)) == Exec(p, who, ns)
  {
    if j > 0 {
      var n := Apply(EnsureNamespace, who, 0, ns).value;
      assert Apply(EnsureNamespace, who, 0, Some(n)) == Some(n);
      assert Exec(p, who, ns) == Exec(p, who, Some(n));
      assert p[..j][0] == EnsureNamespace;
      assert Exec(p[..j], who, ns) == Exec(p[..j], who, Some(n));
      ExecParts(p[..j], who, n);
      ExecParts(p, who, n);
      ExecParts(p, who, Exec(p[..j], who, Some(n)).value);
      PodsAbsorb(p, j, who, n.pods);
      AbsorbAll(p[..j], p, who.uid, n.objects);
      ExecObjectsConcat(p[..j], p, who.uid, n.objects);
    }
  }
}
