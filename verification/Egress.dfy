/**
 * The egress compiler: lists of EgressRule become Cilium network policies.
 * Both sides get a meaning (the flows they let out), and the two agree.
 */
module Egress {
  import opened Common

  // ------------------------------------------------------------- source language

  type PortNumber = p: int | 1 <= p <= 65535 witness 1

  datatype Protocol = Unset | TCP | UDP

  datatype EgressPort = EgressPort(protocol: Protocol, port: PortNumber)

  datatype EgressRule = EgressRule(fqdns: seq<string>, cidrs: seq<string>, ports: seq<EgressPort>)

  // ------------------------------------------------------------- target language

  type Labels = map<string, string>

  datatype Transport = TcpOnly | UdpOnly | AnyTransport

  datatype PortEntry = PortEntry(port: string, protocol: Transport)

  /** One toPorts element; `dns` holds the L7 matchPattern list of a DNS rule. */
  datatype PortBlock = PortBlock(ports: seq<PortEntry>, dns: seq<string>)

  datatype FqdnSelector = MatchName(name: string) | MatchPattern(pattern: string)

  datatype Peers =
    | Endpoints(selectors: seq<Labels>)
    | Entities(names: seq<string>)
    | Fqdns(fqdns: seq<FqdnSelector>)
    | Cidrs(cidrs: seq<string>)

  datatype CiliumRule = CiliumRule(peers: Peers, toPorts: Option<seq<PortBlock>>)

  datatype Policy = Policy(selector: Labels, ingress: seq<CiliumRule>, egress: seq<CiliumRule>)

  // ------------------------------------------------------------------- compiler

  const NAMESPACE_LABEL := "k8s:io.kubernetes.pod.namespace"
  const SERVICE_LABEL := "ctf.school/svc"
  const GUARD_PORT: PortNumber := 8080

  function CompilePort(p: EgressPort): PortEntry {
    PortEntry(Decimal(p.port), if p.protocol.UDP? then UdpOnly else TcpOnly)
  }

  function CompilePorts(ports: seq<EgressPort>): (r: seq<PortEntry>)
    ensures |r| == |ports|
    ensures forall i :: 0 <= i < |r| ==> r[i] == CompilePort(ports[i])
  {
    if ports == [] then [] else CompilePorts(ports[..|ports| - 1]) + [CompilePort(ports[|ports| - 1])]
  }

  function ToPorts(ports: seq<EgressPort>): Option<seq<PortBlock>> {
    if ports == [] then None else Some([PortBlock(CompilePorts(ports), [])])
  }

  function CompileFqdn(name: string): FqdnSelector {
    if '*' in name then MatchPattern(name) else MatchName(name)
  }

  function CompileFqdns(names: seq<string>): (r: seq<FqdnSelector>)
    ensures |r| == |names|
    ensures forall i :: 0 <= i < |r| ==> r[i] == CompileFqdn(names[i])
  {
    if names == [] then [] else CompileFqdns(names[..|names| - 1]) + [CompileFqdn(names[|names| - 1])]
  }

  /** The zero, one or two policy rules of one EgressRule. */
  function CompileRule(rule: EgressRule): seq<CiliumRule> {
    (if rule.fqdns == [] then [] else [CiliumRule(Fqdns(CompileFqdns(rule.fqdns)), ToPorts(rule.ports))])
    + (if rule.cidrs == [] then [] else [CiliumRule(Cidrs(rule.cidrs), ToPorts(rule.ports))])
  }

  function CompileRules(rules: seq<EgressRule>): seq<CiliumRule> {
    if rules == [] then [] else CompileRules(rules[..|rules| - 1]) + CompileRule(rules[|rules| - 1])
  }

  function ServicePolicy(service: string, rules: seq<EgressRule>): Policy {
    Policy(map[SERVICE_LABEL := service], [], CompileRules(rules))
  }

  const KUBE_DNS: Labels := map[NAMESPACE_LABEL := "kube-system", "k8s:k8s-app" := "kube-dns"]
  const MONITORING: Labels := map[NAMESPACE_LABEL := "monitoring"]

  const DNS_RULE := CiliumRule(
    Endpoints([KUBE_DNS]),
    Some([PortBlock([PortEntry(Decimal(53), AnyTransport)], ["*"])]))

  const MONITORING_RULE := CiliumRule(
    Endpoints([MONITORING]),
    Some([PortBlock([PortEntry(Decimal(9428), TcpOnly)], [])]))

  const WORLD_RULE := CiliumRule(Entities(["world"]), None)
  const SAME_NAMESPACE_RULE := CiliumRule(Endpoints([map[]]), None)

  const GATEWAY_RULE := CiliumRule(
    Endpoints([map[NAMESPACE_LABEL := "envoy-gateway-system"], map[NAMESPACE_LABEL := "monitoring"]]),
    Some([PortBlock([PortEntry(Decimal(GUARD_PORT), TcpOnly)], [])]))

  function BaselinePolicy(allowInternet: bool): Policy {
    Policy(map[],
           [SAME_NAMESPACE_RULE, GATEWAY_RULE],
           [SAME_NAMESPACE_RULE, DNS_RULE, MONITORING_RULE] + (if allowInternet then [WORLD_RULE] else []))
  }

  // ---------------------------------------------------------- the compiler's loops

  method ToPortsBlock(ports: seq<EgressPort>) returns (block: Option<seq<PortBlock>>)
    ensures block == ToPorts(ports)
  {
    if |ports| == 0 {
      return None;
    }
    var entries: seq<PortEntry> := [];
    for i := 0 to |ports|
      invariant entries == CompilePorts(ports[..i])
    {
      var p := ports[i];
      var proto := p.protocol;
      if proto == Unset {
        proto := TCP;
      }
      assert ports[..i + 1][..i] == ports[..i];
      entries := entries + [PortEntry(Decimal(p.port), if proto == TCP then TcpOnly else UdpOnly)];
    }
    assert ports[..|ports|] == ports;
    return Some([PortBlock(entries, [])]);
  }

  method FqdnEgressRule(rule: EgressRule) returns (out: Option<CiliumRule>)
    ensures out == if rule.fqdns == [] then None
                   else Some(CiliumRule(Fqdns(CompileFqdns(rule.fqdns)), ToPorts(rule.ports)))
  {
    if |rule.fqdns| == 0 {
      return None;
    }
    var fqdns: seq<FqdnSelector> := [];
    for i := 0 to |rule.fqdns|
      invariant fqdns == CompileFqdns(rule.fqdns[..i])
    {
      var name := rule.fqdns[i];
      assert rule.fqdns[..i + 1][..i] == rule.fqdns[..i];
      if '*' in name {
        fqdns := fqdns + [MatchPattern(name)];
      } else {
        fqdns := fqdns + [MatchName(name)];
      }
    }
    assert rule.fqdns[..|rule.fqdns|] == rule.fqdns;
    var ports := ToPortsBlock(rule.ports);
    return Some(CiliumRule(Fqdns(fqdns), ports));
  }

  method CidrEgressRule(rule: EgressRule) returns (out: Option<CiliumRule>)
    ensures out == if rule.cidrs == [] then None
                   else Some(CiliumRule(Cidrs(rule.cidrs), ToPorts(rule.ports)))
  {
    if |rule.cidrs| == 0 {
      return None;
    }
    var cidrs: seq<string> := [];
    for i := 0 to |rule.cidrs|
      invariant cidrs == rule.cidrs[..i]
    {
      cidrs := cidrs + [rule.cidrs[i]];
    }
    assert rule.cidrs[..|rule.cidrs|] == rule.cidrs;
    var ports := ToPortsBlock(rule.ports);
    return Some(CiliumRule(Cidrs(cidrs), ports));
  }

  method RenderServiceRules(rules: seq<EgressRule>) returns (egress: seq<CiliumRule>)
    ensures egress == CompileRules(rules)
  {
    egress := [];
    for i := 0 to |rules|
      invariant egress == CompileRules(rules[..i])
    {
      assert rules[..i + 1][..i] == rules[..i];
      ghost var before := egress;
      var byName := FqdnEgressRule(rules[i]);
      if byName.Some? {
        egress := egress + [byName.value];
      }
      var byAddress := CidrEgressRule(rules[i]);
      if byAddress.Some? {
        egress := egress + [byAddress.value];
      }
      assert egress == before + CompileRule(rules[i]);
    }
    assert rules[..|rules|] == rules;
  }

  // ------------------------------------------------------------------ semantics

  /** Where a packet goes: a pod of the cluster, or an address outside it together
      with the DNS names that resolved to that address. */
  datatype Destination =
    | InCluster(namespace: string, labels: Labels)
    | External(ip: string, names: set<string>)

  datatype Flow = Flow(dst: Destination, port: PortNumber, udp: bool)

  /** Address-range membership, left abstract. */
  datatype Network = Network(inCidr: (string, string) -> bool)

  /** Wildcard matching of DNS names: '*' stands for any run of characters of one label. */
  predicate Glob(pattern: string, name: string)
    decreases |pattern| + |name|
  {
    if pattern == [] then name == []
    else if pattern[0] == '*' then
      Glob(pattern[1..], name) || (name != [] && name[0] != '.' && Glob(pattern, name[1..]))
    else name != [] && name[0] == pattern[0] && Glob(pattern[1..], name[1..])
  }

  /** A pattern without a wildcard matches itself only. */
  lemma {:induction false} GlobExact(pattern: string, name: string)
    requires '*' !in pattern
    ensures Glob(pattern, name) <==> pattern == name
    decreases |pattern|
  {
    if pattern != [] && name != [] {
      GlobExact(pattern[1..], name[1..]);
      assert pattern == [pattern[0]] + pattern[1..];
      assert name == [name[0]] + name[1..];
    }
  }

  /** A pattern that is a lone wildcard covers every name, of however many labels. */
  predicate PatternMatches(pattern: string, name: string) {
    pattern == "*" || Glob(pattern, name)
  }

  /** The meaning of one EgressRule: an outside destination covered by a name, in which a
      wildcard may stand anywhere, or a range, on a listed port, where an empty port list
      means every port and an unset protocol means TCP. */
  ghost predicate RuleGrants(net: Network, rule: EgressRule, flow: Flow) {
    && flow.dst.External?
    && ((exists f, n :: f in rule.fqdns && n in flow.dst.names && PatternMatches(f, n))
        || (exists c :: c in rule.cidrs && net.inCidr(c, flow.dst.ip)))
    && (rule.ports == []
        || exists p :: p in rule.ports && p.port == flow.port && (p.protocol == UDP <==> flow.udp))
  }

  ghost predicate Granted(net: Network, rules: seq<EgressRule>, flow: Flow) {
    exists r :: r in rules && RuleGrants(net, r, flow)
  }

  ghost predicate LabelsMatch(selector: Labels, labels: Labels) {
    forall l :: l in selector ==> l in labels && labels[l] == selector[l]
  }

  /** A peer selector of a namespaced policy reaches into its own namespace only,
      unless it names the namespace label itself. */
  ghost predicate EndpointMatches(policyNamespace: string, selector: Labels, namespace: string, labels: Labels) {
    && LabelsMatch(selector, labels[NAMESPACE_LABEL := namespace])
    && (NAMESPACE_LABEL !in selector ==> namespace == policyNamespace)
  }

  ghost predicate FqdnMatches(selector: FqdnSelector, names: set<string>) {
    match selector
    case MatchName(n) => n in names
    case MatchPattern(p) => exists n :: n in names && PatternMatches(p, n)
  }

  ghost predicate PeersMatch(net: Network, policyNamespace: string, peers: Peers, dst: Destination) {
    match peers
    case Endpoints(selectors) =>
      dst.InCluster? && exists s :: s in selectors && EndpointMatches(policyNamespace, s, dst.namespace, dst.labels)
    case Entities(names) => "world" in names && dst.External?
    case Fqdns(fqdns) => dst.External? && exists f :: f in fqdns && FqdnMatches(f, dst.names)
    case Cidrs(cidrs) => dst.External? && exists c :: c in cidrs && net.inCidr(c, dst.ip)
  }

  /** Port "0" is the wildcard of the policy language. */
  predicate EntryMatches(entry: PortEntry, port: PortNumber, udp: bool) {
    && (entry.port == "0" || entry.port == Decimal(port))
    && (entry.protocol == AnyTransport || (entry.protocol == UdpOnly <==> udp))
  }

  /** The name patterns of a DNS rule leave the port open for every query only if one of
      them covers every name. */
  ghost predicate CoversAll(pattern: string) {
    forall name :: PatternMatches(pattern, name)
  }

  ghost predicate BlockMatches(block: PortBlock, port: PortNumber, udp: bool) {
    && (block.dns == [] || exists p :: p in block.dns && CoversAll(p))
    && (block.ports == [] || exists e :: e in block.ports && EntryMatches(e, port, udp))
  }

  ghost predicate PortsMatch(toPorts: Option<seq<PortBlock>>, port: PortNumber, udp: bool) {
    toPorts.Some? ==> exists b :: b in toPorts.value && BlockMatches(b, port, udp)
  }

  ghost predicate RuleMatches(net: Network, policyNamespace: string, rule: CiliumRule, flow: Flow) {
    PeersMatch(net, policyNamespace, rule.peers, flow.dst) && PortsMatch(rule.toPorts, flow.port, flow.udp)
  }

  ghost predicate AnyRuleMatches(net: Network, policyNamespace: string, rules: seq<CiliumRule>, flow: Flow) {
    exists r :: r in rules && RuleMatches(net, policyNamespace, r, flow)
  }

  // ------------------------------------------------- meaning of compiled port lists

  lemma EntryMeaning(p: EgressPort, port: PortNumber, udp: bool)
    ensures EntryMatches(CompilePort(p), port, udp) <==> p.port == port && (p.protocol == UDP <==> udp)
  {
    DecimalInjective(p.port, port);
    DecimalInjective(p.port, 0);
    assert Decimal(0) == "0";
  }

  lemma PortsMeaning(ports: seq<EgressPort>, port: PortNumber, udp: bool)
    ensures PortsMatch(ToPorts(ports), port, udp)
      <==> ports == [] || exists p :: p in ports && p.port == port && (p.protocol == UDP <==> udp)
  {
    if ports != [] {
      var entries := CompilePorts(ports);
      var block := PortBlock(entries, []);
      assert ToPorts(ports).value == [block];
      assert PortsMatch(ToPorts(ports), port, udp) <==> BlockMatches(block, port, udp);
      if p :| p in ports && p.port == port && (p.protocol == UDP <==> udp) {
        var i :| 0 <= i < |ports| && ports[i] == p;
        EntryMeaning(p, port, udp);
        assert entries[i] in entries && EntryMatches(entries[i], port, udp);
      }
      if e :| e in entries && EntryMatches(e, port, udp) {
        var i :| 0 <= i < |entries| && entries[i] == e;
        EntryMeaning(ports[i], port, udp);
        assert ports[i] in ports;
      }
    }
  }

  lemma FqdnMeaning(name: string, names: set<string>)
    ensures FqdnMatches(CompileFqdn(name), names) <==> exists n :: n in names && PatternMatches(name, n)
  {
    if '*' !in name {
      forall n | n in names ensures PatternMatches(name, n) <==> n == name {
        GlobExact(name, n);
      }
    }
  }

  // ------------------------------------------- the documented reading of a wildcard

  /** What the comment on the renderer says: only a leading "*." makes a pattern. */
  function DocumentedFqdn(name: string): FqdnSelector {
    if HasPrefix(name, "*.") then MatchPattern(name) else MatchName(name)
  }

  lemma {:induction false} GlobSelf(p: string)
    ensures Glob(p, p)
    decreases |p|
  {
    if p != [] {
      GlobSelf(p[1..]);
      assert p[0] == '*' ==> Glob(p, p[1..]);
    }
  }

  lemma {:induction false} GlobWithoutStar(p: string, i: nat)
    requires i < |p| && p[i] == '*' && '*' !in p[..i]
    ensures Glob(p, p[..i] + p[i + 1..])
    decreases i
  {
    var n := p[..i] + p[i + 1..];
    if i == 0 {
      GlobSelf(p[1..]);
      assert n == p[1..];
    } else {
      GlobWithoutStar(p[1..], i - 1);
      assert n[0] == p[0] && p[0] in p[..i];
      assert n[1..] == p[1..][..i - 1] + p[1..][i..];
    }
  }

  lemma FirstStar(name: string) returns (i: nat)
    requires '*' in name
    ensures i < |name| && name[i] == '*' && '*' !in name[..i]
  {
    i := 0;
    while name[i] != '*'
      invariant i < |name| && '*' !in name[..i]
      decreases |name| - i
    {
      assert name == name[..i] + [name[i]] + name[i + 1..];
      i := i + 1;
    }
  }

  /** The compiled selector of a name means what the comment says exactly when the name has
      no wildcard or starts with "*.". */
  lemma DocumentedIff(name: string)
    ensures (forall names :: FqdnMatches(CompileFqdn(name), names) <==> FqdnMatches(DocumentedFqdn(name), names))
      <==> ('*' in name ==> HasPrefix(name, "*."))
  {
    if '*' in name && !HasPrefix(name, "*.") {
      var i := FirstStar(name);
      var n := name[..i] + name[i + 1..];
      GlobWithoutStar(name, i);
      assert PatternMatches(name, n) && n != name;
      assert FqdnMatches(CompileFqdn(name), {n}) && !FqdnMatches(DocumentedFqdn(name), {n});
    }
    if HasPrefix(name, "*.") {
      assert name[0] == '*';
    }
  }

  lemma FqdnsMeaning(fqdns: seq<string>, names: set<string>)
    ensures (exists s :: s in CompileFqdns(fqdns) && FqdnMatches(s, names))
      <==> exists f, n :: f in fqdns && n in names && PatternMatches(f, n)
  {
    var out := CompileFqdns(fqdns);
    if s :| s in out && FqdnMatches(s, names) {
      var i :| 0 <= i < |out| && out[i] == s;
      FqdnMeaning(fqdns[i], names);
      assert fqdns[i] in fqdns;
    }
    if f, n :| f in fqdns && n in names && PatternMatches(f, n) {
      var i :| 0 <= i < |fqdns| && fqdns[i] == f;
      FqdnMeaning(f, names);
      assert out[i] in out && FqdnMatches(out[i], names);
    }
  }

  // ----------------------------------------------------- meaning of compiled rules

  /** The compiled form of one rule lets out exactly what the rule grants. */
  lemma RuleMeaning(net: Network, ns: string, rule: EgressRule, flow: Flow)
    ensures AnyRuleMatches(net, ns, CompileRule(rule), flow) <==> RuleGrants(net, rule, flow)
  {
    PortsMeaning(rule.ports, flow.port, flow.udp);
    var byName := CiliumRule(Fqdns(CompileFqdns(rule.fqdns)), ToPorts(rule.ports));
    var byAddress := CiliumRule(Cidrs(rule.cidrs), ToPorts(rule.ports));
    var out := CompileRule(rule);
    assert rule.fqdns != [] ==> out[0] == byName;
    assert rule.cidrs != [] ==> out[|out| - 1] == byAddress;
    if flow.dst.External? {
      FqdnsMeaning(rule.fqdns, flow.dst.names);
      var named := exists s :: s in CompileFqdns(rule.fqdns) && FqdnMatches(s, flow.dst.names);
      var ranged := exists c :: c in rule.cidrs && net.inCidr(c, flow.dst.ip);
      assert PeersMatch(net, ns, byName.peers, flow.dst) == named;
      assert PeersMatch(net, ns, byAddress.peers, flow.dst) == ranged;
      if AnyRuleMatches(net, ns, out, flow) {
        var r :| r in out && RuleMatches(net, ns, r, flow);
        assert r == byName || r == byAddress;
      }
      if RuleGrants(net, rule, flow) {
        if named {
          assert out[0] in out && RuleMatches(net, ns, out[0], flow);
        } else {
          assert out[|out| - 1] in out && RuleMatches(net, ns, out[|out| - 1], flow);
        }
      }
    }
  }

  lemma AnyRuleMatchesConcat(net: Network, ns: string, a: seq<CiliumRule>, b: seq<CiliumRule>, flow: Flow)
    ensures AnyRuleMatches(net, ns, a + b, flow)
      <==> AnyRuleMatches(net, ns, a, flow) || AnyRuleMatches(net, ns, b, flow)
  {
    if r :| r in a && RuleMatches(net, ns, r, flow) { assert r in a + b; }
    if r :| r in b && RuleMatches(net, ns, r, flow) { assert r in a + b; }
  }

  /** The compiled list lets out a flow exactly when some source rule grants it. */
  lemma {:induction false} RulesMeaning(net: Network, ns: string, rules: seq<EgressRule>, flow: Flow)
    ensures AnyRuleMatches(net, ns, CompileRules(rules), flow) <==> Granted(net, rules, flow)
    decreases |rules|
  {
    if rules != [] {
      var front, last := rules[..|rules| - 1], rules[|rules| - 1];
      RulesMeaning(net, ns, front, flow);
      RuleMeaning(net, ns, last, flow);
      AnyRuleMatchesConcat(net, ns, CompileRules(front), CompileRule(last), flow);
      assert rules == front + [last];
    }
  }

  // ------------------------------------------------------------ meaning of policies

  ghost predicate PolicyAllows(net: Network, ns: string, policy: Policy, pod: Labels, flow: Flow) {
    LabelsMatch(policy.selector, pod) && AnyRuleMatches(net, ns, policy.egress, flow)
  }

  /** What every pod of the session may reach whatever its service declares. */
  ghost predicate BaselineIntent(ns: string, allowInternet: bool, flow: Flow) {
    match flow.dst
    case InCluster(namespace, labels) =>
      || namespace == ns
      || (namespace == "kube-system" && "k8s:k8s-app" in labels && labels["k8s:k8s-app"] == "kube-dns"
          && flow.port == 53)
      || (namespace == "monitoring" && flow.port == 9428 && !flow.udp)
    case External(_, _) => allowInternet
  }

  lemma SinglePortMeaning(number: PortNumber, transport: Transport, dns: seq<string>, port: PortNumber, udp: bool)
    requires dns == [] || "*" in dns
    ensures PortsMatch(Some([PortBlock([PortEntry(Decimal(number), transport)], dns)]), port, udp)
      <==> port == number && (transport == AnyTransport || (transport == UdpOnly <==> udp))
  {
    var entry := PortEntry(Decimal(number), transport);
    var block := PortBlock([entry], dns);
    DecimalInjective(number, port);
    DecimalInjective(number, 0);
    assert Decimal(0) == "0";
    assert [block][0] == block && [entry][0] == entry;
    assert BlockMatches(block, port, udp) <==> EntryMatches(entry, port, udp);
  }

  lemma LabelMeaning(l: string, v: string, rest: Labels, labels: Labels)
    ensures LabelsMatch(rest[l := v], labels) ==> l in labels && labels[l] == v
    ensures LabelsMatch(map[l := v], labels) <==> l in labels && labels[l] == v
  {
    assert l in rest[l := v] && l in map[l := v];
  }

  lemma SingleSelectorMeaning(net: Network, ns: string, selector: Labels, dst: Destination)
    ensures PeersMatch(net, ns, Endpoints([selector]), dst)
      <==> dst.InCluster? && EndpointMatches(ns, selector, dst.namespace, dst.labels)
  {
    assert [selector][0] == selector;
  }

  lemma KubeDnsMeaning(namespace: string, podLabels: Labels)
    ensures LabelsMatch(KUBE_DNS, podLabels[NAMESPACE_LABEL := namespace])
      <==> namespace == "kube-system" && "k8s:k8s-app" in podLabels && podLabels["k8s:k8s-app"] == "kube-dns"
  {
    var labels := podLabels[NAMESPACE_LABEL := namespace];
    assert "k8s:k8s-app"[4] != NAMESPACE_LABEL[4];
    LabelMeaning(NAMESPACE_LABEL, "kube-system", map["k8s:k8s-app" := "kube-dns"], labels);
    LabelMeaning("k8s:k8s-app", "kube-dns", map[NAMESPACE_LABEL := "kube-system"], labels);
    assert KUBE_DNS == map["k8s:k8s-app" := "kube-dns"][NAMESPACE_LABEL := "kube-system"];
    assert KUBE_DNS == map[NAMESPACE_LABEL := "kube-system"]["k8s:k8s-app" := "kube-dns"];
  }

  lemma BaselineRules(net: Network, ns: string, allowInternet: bool, flow: Flow)
    ensures AnyRuleMatches(net, ns, BaselinePolicy(allowInternet).egress, flow)
      <==> RuleMatches(net, ns, SAME_NAMESPACE_RULE, flow)
           || RuleMatches(net, ns, DNS_RULE, flow)
           || RuleMatches(net, ns, MONITORING_RULE, flow)
           || (allowInternet && RuleMatches(net, ns, WORLD_RULE, flow))
  {
    var rules := BaselinePolicy(allowInternet).egress;
    assert rules[0] == SAME_NAMESPACE_RULE && rules[1] == DNS_RULE && rules[2] == MONITORING_RULE;
    assert allowInternet ==> rules[3] == WORLD_RULE;
  }

  lemma BaselineMeaning(net: Network, ns: string, allowInternet: bool, pod: Labels, flow: Flow)
    ensures PolicyAllows(net, ns, BaselinePolicy(allowInternet), pod, flow) <==> BaselineIntent(ns, allowInternet, flow)
  {
    BaselineRules(net, ns, allowInternet, flow);
    SingleSelectorMeaning(net, ns, map[], flow.dst);
    SingleSelectorMeaning(net, ns, KUBE_DNS, flow.dst);
    SingleSelectorMeaning(net, ns, MONITORING, flow.dst);
    SinglePortMeaning(53, AnyTransport, ["*"], flow.port, flow.udp);
    SinglePortMeaning(9428, TcpOnly, [], flow.port, flow.udp);
    if flow.dst.InCluster? {
      KubeDnsMeaning(flow.dst.namespace, flow.dst.labels);
      LabelMeaning(NAMESPACE_LABEL, "monitoring", map[], flow.dst.labels[NAMESPACE_LABEL := flow.dst.namespace]);
    }
  }

  lemma ServiceMeaning(net: Network, ns: string, service: string, rules: seq<EgressRule>, pod: Labels, flow: Flow)
    ensures PolicyAllows(net, ns, ServicePolicy(service, rules), pod, flow)
      <==> SERVICE_LABEL in pod && pod[SERVICE_LABEL] == service && Granted(net, rules, flow)
  {
    RulesMeaning(net, ns, rules, flow);
  }

  // ----------------------------------------------------------------------- ingress

  ghost predicate PolicyAdmits(net: Network, ns: string, policy: Policy, pod: Labels, source: Destination,
                               port: PortNumber, udp: bool) {
    LabelsMatch(policy.selector, pod) && AnyRuleMatches(net, ns, policy.ingress, Flow(source, port, udp))
  }

  /** Who may open a connection to a lab pod: its own namespace on any port, and the
      gateway and monitoring namespaces on the guard port over TCP. */
  lemma BaselineIngressMeaning(net: Network, ns: string, allowInternet: bool, pod: Labels, source: Destination,
                               port: PortNumber, udp: bool)
    ensures PolicyAdmits(net, ns, BaselinePolicy(allowInternet), pod, source, port, udp)
      <==> source.InCluster?
           && (source.namespace == ns
               || ((source.namespace == "envoy-gateway-system" || source.namespace == "monitoring")
                   && port == GUARD_PORT && !udp))
  {
    var flow := Flow(source, port, udp);
    var gateway: Labels := map[NAMESPACE_LABEL := "envoy-gateway-system"];
    var monitoring: Labels := map[NAMESPACE_LABEL := "monitoring"];
    SingleSelectorMeaning(net, ns, map[], source);
    SinglePortMeaning(GUARD_PORT, TcpOnly, [], port, udp);
    var rules := BaselinePolicy(allowInternet).ingress;
    assert rules[0] == SAME_NAMESPACE_RULE && rules[1] == GATEWAY_RULE;
    assert AnyRuleMatches(net, ns, rules, flow)
      <==> RuleMatches(net, ns, SAME_NAMESPACE_RULE, flow) || RuleMatches(net, ns, GATEWAY_RULE, flow);
    if source.InCluster? {
      var labels := source.labels[NAMESPACE_LABEL := source.namespace];
      LabelMeaning(NAMESPACE_LABEL, "envoy-gateway-system", map[], labels);
      LabelMeaning(NAMESPACE_LABEL, "monitoring", map[], labels);
      assert LabelsMatch(gateway, labels) <==> source.namespace == "envoy-gateway-system";
      assert LabelsMatch(monitoring, labels) <==> source.namespace == "monitoring";
      assert [gateway, monitoring][0] == gateway && [gateway, monitoring][1] == monitoring;
      assert PeersMatch(net, ns, GATEWAY_RULE.peers, source)
        <==> EndpointMatches(ns, gateway, source.namespace, source.labels)
             || EndpointMatches(ns, monitoring, source.namespace, source.labels);
    }
  }
}
