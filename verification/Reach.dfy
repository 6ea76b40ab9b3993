/** What the pods of a session can reach, from the policies its namespace actually holds. */
module Reach {
  import opened Egress
  import opened Names
  import opened Objects
  import opened Actions
  import opened Plans
  import opened Protocol
  import opened Invariants
  import opened Preservation
  import opened Guarantees

  ghost predicate SelectedBy(objects: map<Key, Obj>, key: Key, pod: Labels) {
    key in objects && objects[key].body.PolicyBody? && LabelsMatch(objects[key].body.policy.selector, pod)
  }

  /** Traffic is unrestricted until some policy selects the pod, and then only what one of
      the selecting policies lists gets out. */
  ghost predicate Permits(net: Network, ns: string, objects: map<Key, Obj>, pod: Labels, flow: Flow) {
    (forall key :: !SelectedBy(objects, key, pod))
    || exists key :: SelectedBy(objects, key, pod) && PolicyAllows(net, ns, objects[key].body.policy, pod, flow)
  }

  /** The same for connections coming in. A policy without an ingress section closes nothing
      in Cilium; here that makes no difference, since the baseline has one and selects every
      pod whenever this is used. */
  ghost predicate Accepts(net: Network, ns: string, objects: map<Key, Obj>, pod: Labels, source: Destination,
                          port: PortNumber, udp: bool) {
    (forall key :: !SelectedBy(objects, key, pod))
    || exists key :: SelectedBy(objects, key, pod)
          && PolicyAdmits(net, ns, objects[key].body.policy, pod, source, port, udp)
  }

  /** The rules of the policy stored for the service a pod belongs to, if any. */
  function StoredRules(objects: map<Key, Obj>, service: string): seq<CiliumRule> {
    if EgressKey(service) in objects && objects[EgressKey(service)].body.PolicyBody?
    then objects[EgressKey(service)].body.policy.egress else []
  }

  lemma PolicyShape(objects: map<Key, Obj>, key: Key)
    requires ObjectsOk(objects) && key in objects && key.kind == KPolicy && key != BASELINE
    ensures exists s, rules :: key == EgressKey(s) && objects[key].body == PolicyBody(ServicePolicy(s, rules))
  {
    assert PolicyFits(key, objects[key].body);
    var s, rules :| key == EgressKey(s) && objects[key].body.policy == ServicePolicy(s, rules);
    assert objects[key].body == PolicyBody(ServicePolicy(s, rules));
  }

  /** A flow a pod gets out is given to everyone, or listed under its own service's key. */
  lemma PermittedHasSource(net: Network, ns: string, objects: map<Key, Obj>, allowInternet: bool, pod: Labels,
                           flow: Flow)
    requires ObjectsOk(objects)
    requires BASELINE in objects && objects[BASELINE].body == PolicyBody(BaselinePolicy(allowInternet))
    requires Permits(net, ns, objects, pod, flow) && !BaselineIntent(ns, allowInternet, flow)
    ensures SERVICE_LABEL in pod && AnyRuleMatches(net, ns, StoredRules(objects, pod[SERVICE_LABEL]), flow)
  {
    BaselineMeaning(net, ns, allowInternet, pod, flow);
    assert SelectedBy(objects, BASELINE, pod);
    var key :| SelectedBy(objects, key, pod) && PolicyAllows(net, ns, objects[key].body.policy, pod, flow);
    PolicyShape(objects, key);
    var s, rules :| key == EgressKey(s) && objects[key].body == PolicyBody(ServicePolicy(s, rules));
    assert SERVICE_LABEL in ServicePolicy(s, rules).selector;
    assert pod[SERVICE_LABEL] == s;
  }

  lemma StoredRulePermits(net: Network, ns: string, objects: map<Key, Obj>, pod: Labels, flow: Flow)
    requires ObjectsOk(objects)
    requires SERVICE_LABEL in pod && AnyRuleMatches(net, ns, StoredRules(objects, pod[SERVICE_LABEL]), flow)
    ensures Permits(net, ns, objects, pod, flow)
  {
    var key := EgressKey(pod[SERVICE_LABEL]);
    assert key in objects;
    PolicyNamesDistinct(pod[SERVICE_LABEL], pod[SERVICE_LABEL]);
    PolicyShape(objects, key);
    var s, rules :| key == EgressKey(s) && objects[key].body == PolicyBody(ServicePolicy(s, rules));
    PolicyNamesDistinct(s, pod[SERVICE_LABEL]);
    assert SelectedBy(objects, key, pod) && PolicyAllows(net, ns, objects[key].body.policy, pod, flow);
  }

  lemma BaselinePermits(net: Network, ns: string, objects: map<Key, Obj>, allowInternet: bool, pod: Labels, flow: Flow)
    requires BASELINE in objects && objects[BASELINE].body == PolicyBody(BaselinePolicy(allowInternet))
    requires BaselineIntent(ns, allowInternet, flow)
    ensures Permits(net, ns, objects, pod, flow)
  {
    BaselineMeaning(net, ns, allowInternet, pod, flow);
    assert SelectedBy(objects, BASELINE, pod) && PolicyAllows(net, ns, objects[BASELINE].body.policy, pod, flow);
  }

  /** With the baseline in place, a pod gets out exactly what the baseline gives everyone,
      and what the policy stored under its own service's key lists. Policies left behind by
      services that are no longer selected give it nothing. */
  lemma NamespaceReach(net: Network, ns: string, objects: map<Key, Obj>, allowInternet: bool, pod: Labels, flow: Flow)
    requires ObjectsOk(objects)
    requires BASELINE in objects && objects[BASELINE].body == PolicyBody(BaselinePolicy(allowInternet))
    ensures Permits(net, ns, objects, pod, flow)
      <==> BaselineIntent(ns, allowInternet, flow)
           || (SERVICE_LABEL in pod && AnyRuleMatches(net, ns, StoredRules(objects, pod[SERVICE_LABEL]), flow))
  {
    if BaselineIntent(ns, allowInternet, flow) {
      BaselinePermits(net, ns, objects, allowInternet, pod, flow);
    } else if Permits(net, ns, objects, pod, flow) {
      PermittedHasSource(net, ns, objects, allowInternet, pod, flow);
    } else if SERVICE_LABEL in pod && AnyRuleMatches(net, ns, StoredRules(objects, pod[SERVICE_LABEL]), flow) {
      StoredRulePermits(net, ns, objects, pod, flow);
    }
  }

  // -------------------------------------------------------------- after a reconcile

  lemma PlanSound(cfg: Config, k: string, userId: string, space: Space, svcs: seq<LabService>)
    ensures AllSound(FullPlan(cfg, k, userId, space, svcs))
  {
    SetupSound(cfg, space);
    WorkSound(cfg, k, userId, space, svcs);
  }

  lemma {:induction false} ExecKeepsShape(acts: seq<Action>, uid: Uid, m: map<Key, Obj>)
    requires ObjectsOk(m) && AllSound(acts)
    ensures ObjectsOk(ExecObjects(acts, uid, m))
    decreases |acts|
  {
    if acts != [] {
      ApplyObjectsOk(acts[0], uid, m);
      assert AllSound(acts[1..]);
      ExecKeepsShape(acts[1..], uid, ApplyObjects(acts[0], uid, m));
    }
  }

  /** After one full plan, whatever policies earlier specs had left in the namespace, a pod
      of selected service i reaches a destination exactly when the current space gives it
      to every pod or one of the service's current rules grants it. */
  lemma ServiceReach(cfg: Config, k: string, userId: string, space: Space, svcs: seq<LabService>, i: nat, uid: Uid,
                     m: map<Key, Obj>, net: Network, flow: Flow)
    requires ObjectsOk(m) && i < |svcs| && DistinctNames(svcs)
    ensures Permits(net, NamespaceOf(k), ExecObjects(FullPlan(cfg, k, userId, space, svcs), uid, m),
                    ServiceLabels(k, svcs[i]), flow)
      <==> BaselineIntent(NamespaceOf(k), space.allowInternet, flow) || Granted(net, svcs[i].egress, flow)
  {
    var plan := FullPlan(cfg, k, userId, space, svcs);
    var end := ExecObjects(plan, uid, m);
    var s := svcs[i];
    PlanSound(cfg, k, userId, space, svcs);
    ExecKeepsShape(plan, uid, m);
    BaselineAfterPlan(cfg, k, userId, space, svcs, uid, m);
    ServicePolicyAfterPlan(cfg, k, userId, space, svcs, i, uid, m);
    ReachOf(cfg, k, space, s, end, net, flow);
  }

  lemma ReachOf(cfg: Config, k: string, space: Space, s: LabService, end: map<Key, Obj>, net: Network, flow: Flow)
    requires ObjectsOk(end)
    requires BASELINE in end && end[BASELINE].body == PolicyBody(BaselinePolicy(space.allowInternet))
    requires if s.egress == [] then EgressKey(s.name) !in end
             else EgressKey(s.name) in end && end[EgressKey(s.name)].body == PolicyBody(ServicePolicy(s.name, s.egress))
    ensures Permits(net, NamespaceOf(k), end, ServiceLabels(k, s), flow)
      <==> BaselineIntent(NamespaceOf(k), space.allowInternet, flow) || Granted(net, s.egress, flow)
  {
    var pod := ServiceLabels(k, s);
    assert SERVICE_LABEL in pod && pod[SERVICE_LABEL] == s.name;
    NamespaceReach(net, NamespaceOf(k), end, space.allowInternet, pod, flow);
    RulesMeaning(net, NamespaceOf(k), s.egress, flow);
    assert StoredRules(end, s.name) == CompileRules(s.egress);
  }

  /** The desktop gains nothing from any service's rules. */
  lemma WorkspaceReach(cfg: Config, k: string, userId: string, space: Space, svcs: seq<LabService>, uid: Uid,
                       m: map<Key, Obj>, net: Network, flow: Flow)
    requires ObjectsOk(m)
    ensures Permits(net, NamespaceOf(k), ExecObjects(FullPlan(cfg, k, userId, space, svcs), uid, m), WorkspaceLabels(k),
                    flow)
      <==> BaselineIntent(NamespaceOf(k), space.allowInternet, flow)
  {
    var plan := FullPlan(cfg, k, userId, space, svcs);
    var end := ExecObjects(plan, uid, m);
    PlanSound(cfg, k, userId, space, svcs);
    ExecKeepsShape(plan, uid, m);
    BaselineAfterPlan(cfg, k, userId, space, svcs, uid, m);
    NoServiceLabel(k);
    NamespaceReach(net, NamespaceOf(k), end, space.allowInternet, WorkspaceLabels(k), flow);
  }

  lemma NoServiceLabel(k: string)
    ensures SERVICE_LABEL !in WorkspaceLabels(k)
  {
    assert |SERVICE_LABEL| == 14 && |"app"| == 3 && |"ctf.school/role"| == 15 && |"ctf.school/session"| == 18;
  }

  // ------------------------------------------------------------- between sessions

  lemma SessionNamespaceIsOrdinary(k: string)
    ensures NamespaceOf(k) != "kube-system" && NamespaceOf(k) != "monitoring"
      && NamespaceOf(k) != "envoy-gateway-system"
  {
    assert NamespaceOf(k)[0] == 'l';
  }

  /** Once the baseline is in place, no pod of one session can open a connection to a pod
      of another session, whatever the specs say: neither end lets it through. */
  lemma SessionsCannotTalk(net: Network, a: string, b: string, objects: map<Key, Obj>, allowInternet: bool,
                           pod: Labels, peer: Labels, port: PortNumber, udp: bool)
    requires a != b && ObjectsOk(objects)
    requires BASELINE in objects && objects[BASELINE].body == PolicyBody(BaselinePolicy(allowInternet))
    ensures !Permits(net, NamespaceOf(a), objects, pod, Flow(InCluster(NamespaceOf(b), peer), port, udp))
    ensures !Accepts(net, NamespaceOf(a), objects, pod, InCluster(NamespaceOf(b), peer), port, udp)
  {
    var ns, there := NamespaceOf(a), InCluster(NamespaceOf(b), peer);
    var flow := Flow(there, port, udp);
    NamespacesDistinct(a, b);
    SessionNamespaceIsOrdinary(b);
    NamespaceReach(net, ns, objects, allowInternet, pod, flow);
    assert SelectedBy(objects, BASELINE, pod);
    if SERVICE_LABEL in pod && AnyRuleMatches(net, ns, StoredRules(objects, pod[SERVICE_LABEL]), flow) {
      var key := EgressKey(pod[SERVICE_LABEL]);
      PolicyNamesDistinct(pod[SERVICE_LABEL], pod[SERVICE_LABEL]);
      PolicyShape(objects, key);
      var s, rules :| key == EgressKey(s) && objects[key].body == PolicyBody(ServicePolicy(s, rules));
      RulesMeaning(net, ns, rules, flow);
    }
    BaselineIngressMeaning(net, ns, allowInternet, pod, there, port, udp);
    if Accepts(net, ns, objects, pod, there, port, udp) {
      var key :| SelectedBy(objects, key, pod)
        && PolicyAdmits(net, ns, objects[key].body.policy, pod, there, port, udp);
      if key != BASELINE {
        PolicyShape(objects, key);
      }
    }
  }

  /** At any time in any run while a session is not being deleted, and even then until its
      namespace is torn down, a pod made for its current incarnation can neither open a
      connection to a pod of another session nor be reached from one. */
  lemma RunsKeepSessionsApart(cfg: Config, moves: seq<Move>, net: Network, a: string, i: nat, b: string, peer: Labels,
                              port: PortNumber, udp: bool)
    requires a != b
    ensures var c := Run(cfg, START, moves).cluster;
      Standing(c, a) && i < |PodsAt(c, a)| && PodsAt(c, a)[i].birth.uid == c.sessions[a].uid
      ==> var objects, pod := NamespaceAt(c, a).value.objects, PodsAt(c, a)[i].labels;
          && !Permits(net, NamespaceOf(a), objects, pod, Flow(InCluster(NamespaceOf(b), peer), port, udp))
          && !Accepts(net, NamespaceOf(a), objects, pod, InCluster(NamespaceOf(b), peer), port, udp)
  {
    var c := Run(cfg, START, moves).cluster;
    if Standing(c, a) && i < |PodsAt(c, a)| && PodsAt(c, a)[i].birth.uid == c.sessions[a].uid {
      IsolationBeforeWorkload(cfg, moves, a, i);
      RunInv(cfg, moves);
      assert Ok(c, a, LocalOf(Run(cfg, START, moves), a));
      var objects := NamespaceAt(c, a).value.objects;
      var allow :| objects[BASELINE].body == PolicyBody(BaselinePolicy(allow));
      SessionsCannotTalk(net, a, b, objects, allow, PodsAt(c, a)[i].labels, peer, port, udp);
    }
  }
}
