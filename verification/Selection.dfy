/** Which pods the Services and policies of a session select, in every run. */
module Selection {
  import opened Common
  import opened Egress
  import opened Names
  import opened Objects
  import opened Actions
  import opened Protocol
  import opened Invariants
  import opened Preservation

  // --------------------------------------------------------------- labels and selectors

  /** The pod is labelled with its own name, twice if it is a challenge. */
  predicate Labelled(name: string, labels: Labels) {
    && "app" in labels && labels["app"] == name
    && (SERVICE_LABEL in labels ==> labels[SERVICE_LABEL] == name)
  }

  predicate PodsLabelled(pods: seq<Pod>) {
    forall i :: 0 <= i < |pods| ==> Labelled(pods[i].name, pods[i].labels)
  }

  /** A Service selects by its own name. */
  predicate SelectsOwn(key: Key, body: Body) {
    key.kind == KService ==> body.ServiceBody? && body.selector == map["app" := key.name]
  }

  predicate ObjectsSelect(objects: map<Key, Obj>) {
    forall key :: key in objects ==> SelectsOwn(key, objects[key].body)
  }

  predicate Tidy(n: Namespace) {
    PodsLabelled(n.pods) && ObjectsSelect(n.objects)
  }

  predicate AllTidy(c: Cluster) {
    forall name :: name in c.namespaces ==> Tidy(c.namespaces[name])
  }

  predicate TidyAction(a: Action) {
    && (a.CreatePod? ==> Labelled(a.template.name, a.template.labels))
    && (a.Put? ==> SelectsOwn(a.key, a.body))
  }

  predicate TidyActions(todo: seq<Action>) {
    forall a :: a in todo ==> TidyAction(a)
  }

  /** The calls a reconcile still has to make. */
  predicate TidyLocal(l: Local) {
    (l.Setup? || l.Work?) ==> TidyActions(l.todo)
  }

  lemma SetupTidy(cfg: Config, space: Space)
    ensures TidyActions(SetupPlan(cfg, space))
  {
    forall a | a in SetupPlan(cfg, space) ensures TidyAction(a) {
      if a in QuotaActions(space) {
      } else if a in LimitRangeActions(space) {
      } else if a in PullSecretActions(cfg) {
      } else {
        assert a == EnsureNamespace || a == Drop(LEGACY_POLICY) || a == BaselineAction(space);
      }
    }
  }

  lemma OneServiceTidy(cfg: Config, k: string, userId: string, space: Space, s: LabService)
    ensures TidyActions(ServiceActions(cfg, k, userId, space, s))
  {
  }

  lemma {:induction false} ServicesTidy(cfg: Config, k: string, userId: string, space: Space, svcs: seq<LabService>)
    ensures TidyActions(AllServiceActions(cfg, k, userId, space, svcs))
    decreases |svcs|
  {
    if svcs != [] {
      OneServiceTidy(cfg, k, userId, space, svcs[0]);
      ServicesTidy(cfg, k, userId, space, svcs[1..]);
    }
  }

  lemma WorkTidy(cfg: Config, k: string, userId: string, space: Space, svcs: seq<LabService>)
    ensures TidyActions(WorkPlan(cfg, k, userId, space, svcs))
  {
    ServicesTidy(cfg, k, userId, space, svcs);
    assert TidyActions(WorkspaceActions(cfg, k, space));
  }

  // ---------------------------------------------------------------- what calls keep

  lemma ApplyTidy(a: Action, who: Birth, draw: nat, ns: Option<Namespace>)
    requires TidyAction(a) && (ns.Some? ==> Tidy(ns.value))
    ensures Apply(a, who, draw, ns).Some? ==> Tidy(Apply(a, who, draw, ns).value)
  {
  }

  lemma NamespaceTidy(c: Cluster, k: string, ns: Option<Namespace>)
    requires AllTidy(c) && (ns.Some? ==> Tidy(ns.value))
    ensures AllTidy(WithNamespace(c, k, ns))
  {
  }

  lemma ActTidy(c: Cluster, k: string, a: Action, who: Birth, o: Outcome)
    requires AllTidy(c) && TidyAction(a)
    ensures AllTidy(Act(c, k, a, who, o).0)
  {
    ApplyTidy(a, who, DrawOf(o), NamespaceAt(c, k));
    NamespaceTidy(c, k, Apply(a, who, DrawOf(o), NamespaceAt(c, k)));
  }

  lemma PodsTidy(c: Cluster, k: string, pods: seq<Pod>)
    requires AllTidy(c) && PodsLabelled(pods)
    ensures AllTidy(WithPods(c, k, pods))
  {
    if NamespaceAt(c, k).Some? {
      NamespaceTidy(c, k, Some(NamespaceAt(c, k).value.(pods := pods)));
    }
  }

  lemma PodsAtLabelled(c: Cluster, k: string)
    requires AllTidy(c)
    ensures PodsLabelled(PodsAt(c, k))
  {
  }

  lemma ListedTidy(cfg: Config, k: string, l: Local, c: Cluster, o: Outcome)
    requires AllTidy(c) && TidyLocal(l) && (l.Setup? || l.Work?)
    ensures var (l', c') := Step(cfg, k, l, c, o); AllTidy(c') && TidyLocal(l')
  {
    if l.todo != [] {
      ActTidy(c, k, l.todo[0], WhoOf(l.s, l.space), o);
    }
  }

  lemma DeleteTidy(cfg: Config, k: string, l: Local, c: Cluster, o: Outcome)
    requires AllTidy(c) && l.DeletePods?
    ensures var (l', c') := Step(cfg, k, l, c, o); AllTidy(c') && TidyLocal(l')
  {
    if l.pods != [] {
      PodsAtLabelled(c, k);
      PodsTidy(c, k, MarkPodDeleted(PodsAt(c, k), l.pods[0]));
    }
  }

  lemma CleanupTidy(cfg: Config, k: string, l: Local, c: Cluster, o: Outcome)
    requires AllTidy(c) && l.Cleanup?
    ensures var (l', c') := Step(cfg, k, l, c, o); AllTidy(c') && TidyLocal(l')
  {
    if NamespaceAt(c, k).Some? {
      NamespaceTidy(c, k, Some(NamespaceAt(c, k).value.(terminating := true)));
    }
  }

  lemma OthersTidy(cfg: Config, k: string, l: Local, c: Cluster, o: Outcome)
    requires !l.Setup? && !l.Work? && !l.DeletePods? && !l.Cleanup?
    ensures var (l', c') := Step(cfg, k, l, c, o);
      && c'.namespaces == c.namespaces
      && (l'.Setup? ==> exists space :: l'.todo == SetupPlan(cfg, space))
      && (l'.Work? ==> exists u, space, svcs :: l'.todo == WorkPlan(cfg, k, u, space, svcs))
  {
  }

  lemma StepTidy(cfg: Config, k: string, l: Local, c: Cluster, o: Outcome)
    requires AllTidy(c) && TidyLocal(l)
    ensures var (l', c') := Step(cfg, k, l, c, o); AllTidy(c') && TidyLocal(l')
  {
    if l.Setup? || l.Work? {
      ListedTidy(cfg, k, l, c, o);
    } else if l.DeletePods? {
      DeleteTidy(cfg, k, l, c, o);
    } else if l.Cleanup? {
      CleanupTidy(cfg, k, l, c, o);
    } else {
      OthersTidy(cfg, k, l, c, o);
      var l' := Step(cfg, k, l, c, o).0;
      if l'.Setup? {
        var space :| l'.todo == SetupPlan(cfg, space);
        SetupTidy(cfg, space);
      }
      if l'.Work? {
        var u, space, svcs :| l'.todo == WorkPlan(cfg, k, u, space, svcs);
        WorkTidy(cfg, k, u, space, svcs);
      }
    }
  }

  lemma PodStepTidy(c: Cluster, e: EnvStep)
    requires AllTidy(c) && PodEvent(e)
    ensures AllTidy(EnvApply(c, e))
  {
    PodsAtLabelled(c, e.k);
    var pods := PodsAt(c, e.k);
    if e.index < |pods| {
      match e
      case PodReports(k, i, status) => PodsTidy(c, k, pods[i := pods[i].(status := status)]);
      case PodTerminates(k, i) => PodsTidy(c, k, pods[i := pods[i].(terminating := true)]);
      case PodRemoved(k, i) => PodsTidy(c, k, pods[..i] + pods[i + 1..]);
    }
  }

  lemma EnvTidy(c: Cluster, e: EnvStep)
    requires AllTidy(c)
    ensures AllTidy(EnvApply(c, e))
  {
    if PodEvent(e) {
      PodStepTidy(c, e);
    } else if e.ObjectPurged? || e.ObjectCollected? {
      if NamespaceAt(c, e.k).Some? {
        NamespaceTidy(c, e.k, Some(NamespaceAt(c, e.k).value.(objects := NamespaceAt(c, e.k).value.objects - {e.key})));
      }
    } else if e.NamespaceRemoved? {
      NamespaceTidy(c, e.k, None);
    }
  }

  predicate LocalsTidy(locals: map<string, Local>) {
    forall k :: k in locals ==> TidyLocal(locals[k])
  }

  lemma {:induction false} RunTidy(cfg: Config, moves: seq<Move>)
    ensures var g := Run(cfg, START, moves); AllTidy(g.cluster) && LocalsTidy(g.locals)
  {
    if moves != [] {
      var g, last := Run(cfg, START, moves[..|moves| - 1]), moves[|moves| - 1];
      RunTidy(cfg, moves[..|moves| - 1]);
      match last
      case Ctl(k, o) => StepTidy(cfg, k, Started(LocalOf(g, k)), g.cluster, o);
      case Crash(_) =>
      case Env(e) => EnvTidy(g.cluster, e);
    }
  }

  // ----------------------------------------------------------------------- the results

  /** In every run, a Service in the namespace of a session sends its traffic to the pod of
      its own name and to no other: the workspace Service to the desktop, the Service of a
      challenge to that challenge. */
  lemma ServiceSelectsItsPod(cfg: Config, moves: seq<Move>, k: string, key: Key, i: nat, j: nat)
    ensures var c := Run(cfg, START, moves).cluster;
      NamespaceAt(c, k).Some? && key in NamespaceAt(c, k).value.objects && key.kind == KService && i < |PodsAt(c, k)|
      ==> var body, p := NamespaceAt(c, k).value.objects[key].body, PodsAt(c, k)[i];
          && body.ServiceBody?
          && (LabelsMatch(body.selector, p.labels) <==> p.name == key.name)
          && (j < |PodsAt(c, k)| && PodsAt(c, k)[j].name == key.name && p.name == key.name ==> i == j)
  {
    RunTidy(cfg, moves);
    RunInv(cfg, moves);
    var g := Run(cfg, START, moves);
    var c := g.cluster;
    assert Ok(c, k, LocalOf(g, k));
    if NamespaceAt(c, k).Some? && key in NamespaceAt(c, k).value.objects && key.kind == KService && i < |PodsAt(c, k)| {
      assert Tidy(c.namespaces[NamespaceOf(k)]);
      assert SelectsOwn(key, NamespaceAt(c, k).value.objects[key].body);
      assert Labelled(PodsAt(c, k)[i].name, PodsAt(c, k)[i].labels);
      assert "app" in NamespaceAt(c, k).value.objects[key].body.selector;
    }
  }

  /** In every run, the policy stored for a service restricts the challenge pod of that name
      and no other pod; the baseline restricts all of them. */
  lemma PolicySelectsItsPod(cfg: Config, moves: seq<Move>, k: string, service: string, i: nat)
    ensures var c := Run(cfg, START, moves).cluster;
      NamespaceAt(c, k).Some? && i < |PodsAt(c, k)|
      ==> var objects, p := NamespaceAt(c, k).value.objects, PodsAt(c, k)[i];
          && (EgressKey(service) in objects ==>
                && objects[EgressKey(service)].body.PolicyBody?
                && (LabelsMatch(objects[EgressKey(service)].body.policy.selector, p.labels)
                    <==> p.name == service && SERVICE_LABEL in p.labels))
          && (BASELINE in objects ==>
                && objects[BASELINE].body.PolicyBody?
                && LabelsMatch(objects[BASELINE].body.policy.selector, p.labels))
  {
    RunTidy(cfg, moves);
    RunInv(cfg, moves);
    var g := Run(cfg, START, moves);
    var c := g.cluster;
    assert Ok(c, k, LocalOf(g, k));
    if NamespaceAt(c, k).Some? && i < |PodsAt(c, k)| {
      assert Tidy(c.namespaces[NamespaceOf(k)]);
      assert Labelled(PodsAt(c, k)[i].name, PodsAt(c, k)[i].labels);
      var objects := NamespaceAt(c, k).value.objects;
      if EgressKey(service) in objects {
        ServicePolicySelects(objects, service, PodsAt(c, k)[i]);
      }
      if BASELINE in objects {
        BaselineSelects(objects, PodsAt(c, k)[i]);
      }
    }
  }

  lemma ServicePolicySelects(objects: map<Key, Obj>, service: string, p: Pod)
    requires ObjectsOk(objects) && EgressKey(service) in objects && Labelled(p.name, p.labels)
    ensures objects[EgressKey(service)].body.PolicyBody?
    ensures LabelsMatch(objects[EgressKey(service)].body.policy.selector, p.labels)
      <==> p.name == service && SERVICE_LABEL in p.labels
  {
    var key := EgressKey(service);
    PolicyNamesDistinct(service, service);
    assert PolicyFits(key, objects[key].body);
    var s, rules :| key == EgressKey(s) && objects[key].body.policy == ServicePolicy(s, rules);
    PolicyNamesDistinct(s, service);
    assert SERVICE_LABEL in ServicePolicy(s, rules).selector;
  }

  lemma BaselineSelects(objects: map<Key, Obj>, p: Pod)
    requires ObjectsOk(objects) && BASELINE in objects
    ensures objects[BASELINE].body.PolicyBody? && LabelsMatch(objects[BASELINE].body.policy.selector, p.labels)
  {
    assert PolicyFits(BASELINE, objects[BASELINE].body);
    forall s ensures BASELINE != EgressKey(s) { PolicyNamesDistinct(s, s); }
    var b :| objects[BASELINE].body.policy == BaselinePolicy(b);
  }
}
