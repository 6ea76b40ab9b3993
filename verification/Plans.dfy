/** What a whole plan needs in order to go through, and what it leaves at each key. */
module Plans {
  import opened Common
  import opened Egress
  import opened Resources
  import opened Names
  import opened Objects
  import opened Actions

  // ------------------------------------------------------------ shape of the plans

  /** The kinds of action one service contributes. */
  predicate FromService(s: LabService, a: Action) {
    || a.CreatePod?
    || a.PortPanic?
    || a == EgressAction(s)
    || (a.Put? && a.key.kind == KService && a.body.ServiceBody? && !a.ownership.OnCreate?)
    || (a.Put? && a.key.kind == KRoute && a.body.RouteBody? && !a.ownership.OnCreate?)
  }

  lemma ServiceActionsMember(cfg: Config, k: string, userId: string, space: Space, s: LabService)
    ensures forall a :: a in ServiceActions(cfg, k, userId, space, s) ==> FromService(s, a)
  {
  }

  lemma {:induction false} AllServiceActionsMember(cfg: Config, k: string, userId: string, space: Space,
                                                   svcs: seq<LabService>)
    ensures forall a :: a in AllServiceActions(cfg, k, userId, space, svcs)
              ==> exists s :: s in svcs && FromService(s, a)
    decreases |svcs|
  {
    if svcs != [] {
      var head := ServiceActions(cfg, k, userId, space, svcs[0]);
      var tail := AllServiceActions(cfg, k, userId, space, svcs[1..]);
      ServiceActionsMember(cfg, k, userId, space, svcs[0]);
      AllServiceActionsMember(cfg, k, userId, space, svcs[1..]);
      forall a | a in head + tail ensures exists s :: s in svcs && FromService(s, a) {
        if a in head {
          assert svcs[0] in svcs && FromService(svcs[0], a);
        } else {
          var s :| s in svcs[1..] && FromService(s, a);
          assert s in svcs;
        }
      }
    }
  }

  lemma Associate<T>(a: seq<T>, b: seq<T>, c: seq<T>)
    ensures a + (b + c) == (a + b) + c
  {
  }

  lemma {:induction false} AllServiceActionsConcat(cfg: Config, k: string, userId: string, space: Space,
                                                   a: seq<LabService>, b: seq<LabService>)
    ensures AllServiceActions(cfg, k, userId, space, a + b)
         == AllServiceActions(cfg, k, userId, space, a) + AllServiceActions(cfg, k, userId, space, b)
    decreases |a|
  {
    if a == [] {
      assert a + b == b;
    } else {
      assert (a + b)[1..] == a[1..] + b && (a + b)[0] == a[0];
      AllServiceActionsConcat(cfg, k, userId, space, a[1..], b);
      Associate(ServiceActions(cfg, k, userId, space, a[0]),
                AllServiceActions(cfg, k, userId, space, a[1..]), AllServiceActions(cfg, k, userId, space, b));
    }
  }

  lemma AllServiceActionsHas(cfg: Config, k: string, userId: string, space: Space, svcs: seq<LabService>, i: nat)
    requires i < |svcs|
    ensures AllServiceActions(cfg, k, userId, space, svcs)
         == AllServiceActions(cfg, k, userId, space, svcs[..i])
            + (ServiceActions(cfg, k, userId, space, svcs[i])
               + AllServiceActions(cfg, k, userId, space, svcs[i + 1..]))
  {
    assert svcs == svcs[..i] + svcs[i..];
    AllServiceActionsConcat(cfg, k, userId, space, svcs[..i], svcs[i..]);
    assert svcs[i..][0] == svcs[i] && svcs[i..][1..] == svcs[i + 1..];
  }

  /** The keys a plan writes, and how. */
  predicate KnownAction(cfg: Config, k: string, space: Space, svcs: seq<LabService>, a: Action) {
    match a
    case Put(key, ownership, body) =>
      || (key == PULL_SECRET && ownership.OnCreate?)
      || ((key == QUOTA || key == LIMIT_RANGE) && ownership.Unowned?)
      || (a == BaselineAction(space))
      || (key.kind == KService && body.ServiceBody? && !ownership.OnCreate?)
      || (key.kind == KRoute && body.RouteBody? && !ownership.OnCreate?)
      || (exists s :: s in svcs && s.egress != [] && a == EgressAction(s))
    case Drop(key) => key == LEGACY_POLICY || exists s :: s in svcs && s.egress == [] && a == EgressAction(s)
    case EnsureNamespace => true
    case CreatePod(_) => true
    case ListTasks(_) => true
    case PortPanic => true
  }

  lemma SetupActionsKnown(cfg: Config, k: string, space: Space, svcs: seq<LabService>, a: Action)
    requires a in SetupPlan(cfg, space)
    ensures KnownAction(cfg, k, space, svcs, a)
  {
    if a in QuotaActions(space) {
    } else if a in LimitRangeActions(space) {
    } else if a in PullSecretActions(cfg) {
    } else {
      assert a == EnsureNamespace || a == Drop(LEGACY_POLICY) || a == BaselineAction(space);
    }
  }

  lemma WorkspaceActionsKnown(cfg: Config, k: string, space: Space, svcs: seq<LabService>, a: Action)
    requires a in WorkspaceActions(cfg, k, space)
    ensures KnownAction(cfg, k, space, svcs, a)
  {
  }

  lemma ServiceActionsKnown(cfg: Config, k: string, space: Space, svcs: seq<LabService>, s: LabService, a: Action)
    requires s in svcs && FromService(s, a)
    ensures KnownAction(cfg, k, space, svcs, a)
  {
  }

  lemma PlanActions(cfg: Config, k: string, userId: string, space: Space, svcs: seq<LabService>, a: Action)
    requires a in FullPlan(cfg, k, userId, space, svcs)
    ensures KnownAction(cfg, k, space, svcs, a)
  {
    if a in SetupPlan(cfg, space) {
      SetupActionsKnown(cfg, k, space, svcs, a);
    } else if a in WorkspaceActions(cfg, k, space) {
      WorkspaceActionsKnown(cfg, k, space, svcs, a);
    } else {
      AllServiceActionsMember(cfg, k, userId, space, svcs);
      var s :| s in svcs && FromService(s, a);
      ServiceActionsKnown(cfg, k, space, svcs, s, a);
    }
  }

  lemma PlanMatched(cfg: Config, k: string, userId: string, space: Space, svcs: seq<LabService>)
    ensures AllMatched(FullPlan(cfg, k, userId, space, svcs))
  {
    var p := FullPlan(cfg, k, userId, space, svcs);
    forall a, b | a in p && b in p ensures Matched(a, b) {
      PlanActions(cfg, k, userId, space, svcs, a);
      PlanActions(cfg, k, userId, space, svcs, b);
    }
  }

  /** No key is both written and deleted by the same plan. */
  predicate NoClash(p: seq<Action>) {
    forall a, b :: a in p && b in p && a.Put? && b.Drop? ==> a.key != b.key
  }

  lemma KnownNoClash(cfg: Config, k: string, space: Space, svcs: seq<LabService>, a: Action, b: Action)
    requires DistinctNames(svcs) && a.Put? && b.Drop?
    requires KnownAction(cfg, k, space, svcs, a) && KnownAction(cfg, k, space, svcs, b)
    ensures a.key != b.key
  {
    if b.key != LEGACY_POLICY {
      var s :| s in svcs && s.egress == [] && b == EgressAction(s);
      PolicyNamesDistinct(s.name, s.name);
      if a.key.kind == KPolicy && a != BaselineAction(space) {
        var t :| t in svcs && t.egress != [] && a == EgressAction(t);
        PolicyNamesDistinct(s.name, t.name);
        if s.name == t.name {
          SameNameSameService(svcs, s, t);
        }
      }
    }
  }

  lemma PlanNoClash(cfg: Config, k: string, userId: string, space: Space, svcs: seq<LabService>)
    requires DistinctNames(svcs)
    ensures NoClash(FullPlan(cfg, k, userId, space, svcs))
  {
    var p := FullPlan(cfg, k, userId, space, svcs);
    forall a, b | a in p && b in p && a.Put? && b.Drop? ensures a.key != b.key {
      PlanActions(cfg, k, userId, space, svcs, a);
      PlanActions(cfg, k, userId, space, svcs, b);
      KnownNoClash(cfg, k, space, svcs, a, b);
    }
  }

  lemma SameNameSameService(svcs: seq<LabService>, s: LabService, t: LabService)
    requires DistinctNames(svcs) && s in svcs && t in svcs && s.name == t.name
    ensures s == t
  {
    var i :| 0 <= i < |svcs| && svcs[i] == s;
    var j :| 0 <= j < |svcs| && svcs[j] == t;
  }

  // --------------------------------------------------------- when a plan goes through

  /** Every call of the plan is let through when nothing else interferes. */
  predicate Admissible(p: seq<Action>, who: Birth, ns: Option<Namespace>) {
    p == [] || (Admits(p[0], ns) && Admissible(p[1..], who, Apply(p[0], who, 0, ns)))
  }

  /** A condition on the namespace as it is before the plan starts. */
  predicate ClearFor(a: Action, n: Namespace) {
    match a
    case Put(key, ownership, _) =>
      && (n.terminating ==> key in n.objects)
      && (ownership.Controlled? ==> !OwnedByOther(n.objects, key))
    case CreatePod(t) => n.terminating ==> HasPod(n.pods, t.name)
    case ListTasks(valid) => valid
    case PortPanic => false
    case EnsureNamespace => true
    case Drop(_) => true
  }

  predicate Clear(p: seq<Action>, n: Namespace) {
    forall a :: a in p ==> ClearFor(a, n)
  }

  lemma HasPodAfter(a: Action, who: Birth, draw: nat, pods: seq<Pod>, name: string)
    ensures HasPod(ApplyPods(a, who, draw, pods), name)
      <==> HasPod(pods, name) || (a.CreatePod? && a.template.name == name)
  {
    var after := ApplyPods(a, who, draw, pods);
    if HasPod(pods, name) {
      var i :| 0 <= i < |pods| && pods[i].name == name;
      assert after[i].name == name;
    }
    if a.CreatePod? && a.template.name == name && !HasPod(pods, name) {
      assert after[|pods|].name == name;
    }
    if HasPod(after, name) && !HasPod(pods, name) {
      var i :| 0 <= i < |after| && after[i].name == name;
      assert i == |pods|;
    }
  }

  /** An admitted action neither helps nor hurts any other action of the plan. */
  lemma ClearForStable(a: Action, b: Action, who: Birth, n: Namespace)
    requires !(a.Drop? && b.Put? && a.key == b.key)
    requires ClearFor(a, n)
    ensures ClearFor(b, Apply(a, who, 0, Some(n)).value) <==> ClearFor(b, n)
  {
    if b.CreatePod? {
      HasPodAfter(a, who, 0, n.pods, b.template.name);
    }
  }

  lemma {:induction false} AdmissibleIffClear(p: seq<Action>, who: Birth, n: Namespace)
    requires NoClash(p)
    ensures Admissible(p, who, Some(n)) <==> Clear(p, n)
    decreases |p|
  {
    if p != [] {
      var next := Apply(p[0], who, 0, Some(n)).value;
      AdmissibleIffClear(p[1..], who, next);
      assert Admits(p[0], Some(n)) <==> ClearFor(p[0], n);
      assert p == [p[0]] + p[1..];
      if Admits(p[0], Some(n)) {
        forall b | b in p[1..] ensures ClearFor(b, next) <==> ClearFor(b, n) {
          ClearForStable(p[0], b, who, n);
        }
      }
    }
  }

  function SomeOr(ns: Option<Namespace>, n: Namespace): Namespace {
    if ns.Some? then ns.value else n
  }

  /** Calls of a plan that went through change nothing about whether the plan goes through. */
  lemma {:induction false} ClearThrough(q: seq<Action>, p: seq<Action>, who: Birth, n: Namespace)
    requires NoClash(p) && (forall a :: a in q ==> a in p) && Admissible(q, who, Some(n))
    ensures Clear(p, SomeOr(Exec(q, who, Some(n)), n)) <==> Clear(p, n)
    decreases |q|
  {
    ExecParts(q, who, n);
    if q != [] {
      var next := Apply(q[0], who, 0, Some(n)).value;
      assert ClearFor(q[0], n);
      forall b | b in p ensures ClearFor(b, next) <==> ClearFor(b, n) {
        ClearForStable(q[0], b, who, n);
      }
      assert Clear(p, next) <==> Clear(p, n);
      ExecParts(q[1..], who, next);
      ClearThrough(q[1..], p, who, next);
    }
  }

  /** Once a prefix of a plan went through, the whole plan goes through from there exactly
      when it goes through from the start. */
  lemma AdmissibleAfterPrefix(p: seq<Action>, j: nat, who: Birth, ns: Option<Namespace>)
    requires j <= |p| && p != [] && p[0].EnsureNamespace? && NoClash(p)
    requires Admissible(p[..j], who, ns)
    ensures Admissible(p, who, Exec(p[..j], who, ns)) <==> Admissible(p, who, ns)
  {
    if j > 0 {
      var n := Apply(EnsureNamespace, who, 0, ns).value;
      assert Admissible(p, who, ns) <==> Admissible(p, who, Some(n));
      assert p[..j][0] == EnsureNamespace;
      assert Exec(p[..j], who, ns) == Exec(p[..j], who, Some(n));
      ClearThrough(p[..j], p, who, n);
      ExecParts(p[..j], who, n);
      AdmissibleIffClear(p, who, n);
      AdmissibleIffClear(p, who, Exec(p[..j], who, Some(n)).value);
    }
  }

  // ----------------------------------------------------------- what is left at a key

  lemma {:induction false} Untouched(p: seq<Action>, uid: Uid, m: map<Key, Obj>, key: Key)
    requires forall a :: a in p ==> !Writes(a, key)
    ensures Lookup(ExecObjects(p, uid, m), key) == Lookup(m, key)
    decreases |p|
  {
    if p != [] {
      ApplyAt(p[0], uid, m, key);
      Untouched(p[1..], uid, ApplyObjects(p[0], uid, m), key);
    }
  }

  /** The last action that writes a key decides what is there. */
  lemma LastWrite(before: seq<Action>, a: Action, after: seq<Action>, uid: Uid, m: map<Key, Obj>, key: Key)
    requires forall b :: b in after ==> !Writes(b, key)
    ensures Lookup(ExecObjects(before + [a] + after, uid, m), key)
         == Effect(a, uid, key, Lookup(ExecObjects(before, uid, m), key))
  {
    var s := ExecObjects(before, uid, m);
    assert before + [a] + after == before + ([a] + after);
    ExecObjectsConcat(before, [a] + after, uid, m);
    ExecObjectsConcat([a], after, uid, s);
    assert [a][1..] == [];
    ApplyAt(a, uid, s, key);
    Untouched(after, uid, ExecObjects([a], uid, s), key);
  }

  lemma SetupWrites(cfg: Config, space: Space)
    ensures SetupPlan(cfg, space)
         == SetupPlan(cfg, space)[..|SetupPlan(cfg, space)| - 1] + [BaselineAction(space)]
  {
  }

  lemma WorkDoesNotWrite(cfg: Config, k: string, userId: string, space: Space, svcs: seq<LabService>, key: Key)
    requires key == BASELINE || key == QUOTA || key == LIMIT_RANGE || key == LEGACY_POLICY || key == PULL_SECRET
    ensures forall a :: a in WorkPlan(cfg, k, userId, space, svcs) ==> !Writes(a, key)
  {
    var tail := AllServiceActions(cfg, k, userId, space, svcs);
    AllServiceActionsMember(cfg, k, userId, space, svcs);
    forall a | a in tail ensures !Writes(a, key) {
      var s :| s in svcs && FromService(s, a);
      PolicyNamesDistinct(s.name, s.name);
    }
    assert forall a :: a in WorkspaceActions(cfg, k, space) ==> !Writes(a, key);
  }

  /** After the plan the baseline is the one of the current space, owned by the session. */
  lemma BaselineAfterPlan(cfg: Config, k: string, userId: string, space: Space, svcs: seq<LabService>, uid: Uid,
                          m: map<Key, Obj>)
    ensures Lookup(ExecObjects(FullPlan(cfg, k, userId, space, svcs), uid, m), BASELINE)
         == Some(Obj(Some(Own(uid)), PolicyBody(BaselinePolicy(space.allowInternet))))
  {
    var setup, work := SetupPlan(cfg, space), WorkPlan(cfg, k, userId, space, svcs);
    SetupWrites(cfg, space);
    WorkDoesNotWrite(cfg, k, userId, space, svcs, BASELINE);
    LastWrite(setup[..|setup| - 1], BaselineAction(space), work, uid, m, BASELINE);
    assert FullPlan(cfg, k, userId, space, svcs) == setup[..|setup| - 1] + [BaselineAction(space)] + work;
  }

  lemma ServiceActionsPolicyKeys(cfg: Config, k: string, userId: string, space: Space, svcs: seq<LabService>,
                                 name: string)
    requires forall s :: s in svcs ==> s.name != name
    ensures forall a :: a in AllServiceActions(cfg, k, userId, space, svcs) ==> !Writes(a, EgressKey(name))
  {
    AllServiceActionsMember(cfg, k, userId, space, svcs);
    forall a | a in AllServiceActions(cfg, k, userId, space, svcs) ensures !Writes(a, EgressKey(name)) {
      var s :| s in svcs && FromService(s, a);
      PolicyNamesDistinct(s.name, name);
    }
  }

  lemma Regroup<T>(x: seq<T>, p: seq<T>, e: T, r: seq<T>, y: seq<T>)
    ensures x + ((p + [e] + r) + y) == (x + p) + [e] + (r + y)
  {
  }

  lemma SplitAtService(cfg: Config, k: string, userId: string, space: Space, svcs: seq<LabService>, i: nat)
    returns (before: seq<Action>, after: seq<Action>)
    requires i < |svcs|
    ensures after == AllServiceActions(cfg, k, userId, space, svcs[i + 1..])
    ensures FullPlan(cfg, k, userId, space, svcs) == before + (ServiceActions(cfg, k, userId, space, svcs[i]) + after)
  {
    var setup, desktop := SetupPlan(cfg, space), WorkspaceActions(cfg, k, space);
    var earlier := AllServiceActions(cfg, k, userId, space, svcs[..i]);
    before := setup + desktop + earlier;
    after := AllServiceActions(cfg, k, userId, space, svcs[i + 1..]);
    AllServiceActionsHas(cfg, k, userId, space, svcs, i);
    var rest := ServiceActions(cfg, k, userId, space, svcs[i]) + after;
    Associate(setup, desktop, earlier + rest);
    Associate(setup + desktop, earlier, rest);
  }

  /** After the plan a selected service has exactly the policy of its current rules,
      and none when it has no rules, whatever was there before. */
  lemma ServicePolicyAfterPlan(cfg: Config, k: string, userId: string, space: Space, svcs: seq<LabService>, i: nat,
                               uid: Uid, m: map<Key, Obj>)
    requires i < |svcs| && DistinctNames(svcs)
    ensures var found := Lookup(ExecObjects(FullPlan(cfg, k, userId, space, svcs), uid, m), EgressKey(svcs[i].name));
      if svcs[i].egress == [] then found.None?
      else found == Some(Obj(Some(Own(uid)), PolicyBody(ServicePolicy(svcs[i].name, svcs[i].egress))))
  {
    var s, key := svcs[i], EgressKey(svcs[i].name);
    var before, after := SplitAtService(cfg, k, userId, space, svcs, i);
    var pod, rest := [CreatePod(ServicePod(k, s))], [ServiceAction(s)] + RouteActions(cfg, userId, space, s);
    EgressCall(cfg, k, userId, space, s);
    Regroup(before, pod, EgressAction(s), rest, after);
    ServiceActionsPolicyKeys(cfg, k, userId, space, svcs[i + 1..], s.name);
    LastWrite(before + pod, EgressAction(s), rest + after, uid, m, key);
    EgressEffect(s, uid, Lookup(ExecObjects(before + pod, uid, m), key));
  }

  lemma EgressCall(cfg: Config, k: string, userId: string, space: Space, s: LabService)
    ensures var rest := [ServiceAction(s)] + RouteActions(cfg, userId, space, s);
      && ServiceActions(cfg, k, userId, space, s) == [CreatePod(ServicePod(k, s))] + [EgressAction(s)] + rest
      && forall a :: a in rest ==> !Writes(a, EgressKey(s.name))
  {
  }

  lemma EgressEffect(s: LabService, uid: Uid, found: Option<Obj>)
    ensures Effect(EgressAction(s), uid, EgressKey(s.name), found)
         == if s.egress == [] then None else Some(Obj(Some(Own(uid)), PolicyBody(ServicePolicy(s.name, s.egress))))
  {
  }

  lemma EffectTwice(a: Action, uid: Uid, key: Key, found: Option<Obj>)
    ensures Effect(a, uid, key, Effect(a, uid, key, found)) == Effect(a, uid, key, found)
  {
    if Writes(a, key) && a.Put? && a.body.ServiceBody? {
      var l := if found.Some? && found.value.body.ServiceBody? then found.value.body.labels else map[];
      assert l + a.body.labels + a.body.labels == l + a.body.labels;
      assert a.body.labels + a.body.labels == a.body.labels;
    }
  }

  /** When all writers of a key are one action, the key holds what that action makes of what
      was there; without a writer it is as before. */
  lemma {:induction false} AgreedEffect(p: seq<Action>, uid: Uid, m: map<Key, Obj>, a: Action)
    requires a.Put? || a.Drop?
    requires forall b :: b in p && Writes(b, a.key) ==> b == a
    ensures Lookup(ExecObjects(p, uid, m), a.key)
         == if a in p then Effect(a, uid, a.key, Lookup(m, a.key)) else Lookup(m, a.key)
    decreases |p|
  {
    if p != [] {
      assert p[0] in p;
      ApplyAt(p[0], uid, m, a.key);
      EffectTwice(a, uid, a.key, Lookup(m, a.key));
      AgreedEffect(p[1..], uid, ApplyObjects(p[0], uid, m), a);
    }
  }

  predicate Setting(key: Key) {
    key == QUOTA || key == LIMIT_RANGE || key == PULL_SECRET || key == LEGACY_POLICY
  }

  /** The one call that may write a setup key. */
  function SettingAction(cfg: Config, space: Space, key: Key): Action
    requires Setting(key)
  {
    if key == QUOTA then QuotaAction(space)
    else if key == LIMIT_RANGE then LimitRangeAction()
    else if key == PULL_SECRET then Put(PULL_SECRET, OnCreate, SecretBody(cfg.pullConfig))
    else Drop(LEGACY_POLICY)
  }

  predicate Wanted(cfg: Config, space: Space, key: Key) {
    && (key == QUOTA || key == LIMIT_RANGE ==> Capped(space.resources))
    && (key == PULL_SECRET ==> cfg.pullConfig != "")
  }

  lemma SettingWriter(cfg: Config, space: Space, key: Key, b: Action)
    requires Setting(key) && b in SetupPlan(cfg, space) && Writes(b, key)
    ensures b == SettingAction(cfg, space, key) && Wanted(cfg, space, key)
  {
    if b in QuotaActions(space) {
    } else if b in LimitRangeActions(space) {
    } else if b in PullSecretActions(cfg) {
    } else {
      assert b == EnsureNamespace || b == Drop(LEGACY_POLICY) || b == BaselineAction(space);
    }
  }

  lemma SettingPresent(cfg: Config, space: Space, key: Key)
    requires Setting(key) && Wanted(cfg, space, key)
    ensures SettingAction(cfg, space, key) in SetupPlan(cfg, space)
  {
    var a := SettingAction(cfg, space, key);
    if key == QUOTA {
      assert a in QuotaActions(space);
    } else if key == LIMIT_RANGE {
      assert a in LimitRangeActions(space);
    } else if key == PULL_SECRET {
      assert a in PullSecretActions(cfg);
    } else {
      assert a in [Drop(LEGACY_POLICY), BaselineAction(space)];
    }
  }

  lemma SettingInSetup(cfg: Config, space: Space, key: Key)
    requires Setting(key)
    ensures SettingAction(cfg, space, key) in SetupPlan(cfg, space) <==> Wanted(cfg, space, key)
    ensures forall b :: b in SetupPlan(cfg, space) && Writes(b, key) ==> b == SettingAction(cfg, space, key)
  {
    if Wanted(cfg, space, key) {
      SettingPresent(cfg, space, key);
    }
    forall b | b in SetupPlan(cfg, space) && Writes(b, key)
      ensures b == SettingAction(cfg, space, key) && Wanted(cfg, space, key)
    {
      SettingWriter(cfg, space, key, b);
    }
  }

  lemma SettingAfterPlan(cfg: Config, k: string, userId: string, space: Space, svcs: seq<LabService>, uid: Uid,
                         m: map<Key, Obj>, key: Key)
    requires Setting(key)
    ensures Lookup(ExecObjects(FullPlan(cfg, k, userId, space, svcs), uid, m), key)
         == if Wanted(cfg, space, key) then Effect(SettingAction(cfg, space, key), uid, key, Lookup(m, key))
            else Lookup(m, key)
  {
    var a, plan := SettingAction(cfg, space, key), FullPlan(cfg, k, userId, space, svcs);
    SettingInSetup(cfg, space, key);
    WorkDoesNotWrite(cfg, k, userId, space, svcs, key);
    assert Writes(a, key);
    assert a in plan <==> a in SetupPlan(cfg, space);
    AgreedEffect(plan, uid, m, a);
  }

  /** What a found object, if any, becomes: the new content under the owner it had, and
      under the given owner when it is created. */
  function Updated(found: Option<Obj>, owner: Option<OwnerRef>, body: Body): Option<Obj> {
    Some(Obj(if found.None? then owner else found.value.owner, body))
  }

  /** The setup objects as they are to be: quota and limit range with no owner of their own
      when the space sets resources and untouched when it sets none, the pull secret with the
      current registry access and owned by the incarnation that created it, or untouched when
      the feature is off, and no policy of the old format. */
  predicate SettingsFor(cfg: Config, space: Space, uid: Uid, before: map<Key, Obj>, after: map<Key, Obj>) {
    && Lookup(after, QUOTA)
       == (if space.resources == Requirements(map[], map[]) then Lookup(before, QUOTA)
           else Updated(Lookup(before, QUOTA), None, QuotaBody(QuotaHard(space.resources))))
    && Lookup(after, LIMIT_RANGE)
       == (if space.resources == Requirements(map[], map[]) then Lookup(before, LIMIT_RANGE)
           else Updated(Lookup(before, LIMIT_RANGE), None,
                        LimitRangeBody(Requirements(LIMIT_RANGE_REQUESTS, LIMIT_RANGE_LIMITS))))
    && Lookup(after, PULL_SECRET)
       == (if cfg.pullConfig == "" then Lookup(before, PULL_SECRET)
           else Updated(Lookup(before, PULL_SECRET), Some(Own(uid)), SecretBody(cfg.pullConfig)))
    && Lookup(after, LEGACY_POLICY) == None
  }

  lemma SettingsOf(cfg: Config, space: Space, uid: Uid, before: map<Key, Obj>, after: map<Key, Obj>)
    requires forall key :: Setting(key) ==>
      Lookup(after, key) == if Wanted(cfg, space, key)
                            then Effect(SettingAction(cfg, space, key), uid, key, Lookup(before, key))
                            else Lookup(before, key)
    ensures SettingsFor(cfg, space, uid, before, after)
  {
    assert Setting(QUOTA) && Setting(LIMIT_RANGE) && Setting(PULL_SECRET) && Setting(LEGACY_POLICY);
  }

  lemma SettingsAfterPlan(cfg: Config, k: string, userId: string, space: Space, svcs: seq<LabService>, uid: Uid,
                          m: map<Key, Obj>)
    ensures SettingsFor(cfg, space, uid, m, ExecObjects(FullPlan(cfg, k, userId, space, svcs), uid, m))
  {
    var after := ExecObjects(FullPlan(cfg, k, userId, space, svcs), uid, m);
    forall key | Setting(key)
      ensures Lookup(after, key) == if Wanted(cfg, space, key)
                                    then Effect(SettingAction(cfg, space, key), uid, key, Lookup(m, key))
                                    else Lookup(m, key)
    {
      SettingAfterPlan(cfg, k, userId, space, svcs, uid, m, key);
    }
    SettingsOf(cfg, space, uid, m, after);
  }

  lemma CappedPlanHas(cfg: Config, space: Space)
    requires Capped(space.resources)
    ensures QuotaAction(space) in SetupPlan(cfg, space) && LimitRangeAction() in SetupPlan(cfg, space)
  {
    assert QuotaAction(space) in QuotaActions(space);
    assert LimitRangeAction() in LimitRangeActions(space);
  }

  /** In particular both are there whenever the space sets resources. */
  lemma QuotaAfterPlan(cfg: Config, k: string, userId: string, space: Space, svcs: seq<LabService>, uid: Uid,
                       m: map<Key, Obj>)
    requires Capped(space.resources)
    ensures var end := ExecObjects(FullPlan(cfg, k, userId, space, svcs), uid, m);
      && QUOTA in end && end[QUOTA].body == QuotaBody(QuotaHard(space.resources))
      && LIMIT_RANGE in end
      && end[LIMIT_RANGE].body == LimitRangeBody(Requirements(LIMIT_RANGE_REQUESTS, LIMIT_RANGE_LIMITS))
  {
    SettingsAfterPlan(cfg, k, userId, space, svcs, uid, m);
  }
}
