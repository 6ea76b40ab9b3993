/** Object names, namespaces and host names derived from a session name. */
module Names {
  import opened Common

  const SESSION_NAMESPACE_PREFIX := "lab-session-"
  const LAB_PREFIX := "lab-"

  /** The namespace that holds everything of one session. */
  function NamespaceOf(session: string): string {
    SESSION_NAMESPACE_PREFIX + session
  }

  function WorkspaceName(session: string): string {
    "workspace-" + session
  }

  function WorkspaceRouteName(session: string): string {
    "workspace-route-" + session
  }

  function EgressPolicyName(service: string): string {
    "egress-" + service
  }

  lemma NamespacesDistinct(a: string, b: string)
    ensures NamespaceOf(a) == NamespaceOf(b) <==> a == b
  {
    PrefixCancels(SESSION_NAMESPACE_PREFIX, a, b);
  }

  /** Policy names of different services differ, and none is the baseline's. */
  lemma PolicyNamesDistinct(a: string, b: string)
    ensures EgressPolicyName(a) == EgressPolicyName(b) <==> a == b
    ensures EgressPolicyName(a) != "lab-baseline"
  {
    PrefixCancels("egress-", a, b);
    assert EgressPolicyName(a)[0] == 'e';
  }

  // ---------------------------------------------------------------- host names

  function LowerChar(c: char): char {
    if 'A' <= c <= 'Z' then (c - 'A') + 'a' else c
  }

  /** One pass over the three rewrites: lower case, then '_' and '@' to '-'. */
  function CleanChar(c: char): char {
    if c == '_' || c == '@' then '-' else LowerChar(c)
  }

  function ToLower(s: string): (r: string) {
    seq(|s|, i requires 0 <= i < |s| => LowerChar(s[i]))
  }

  function ReplaceChar(s: string, from: char, to: char): (r: string) {
    seq(|s|, i requires 0 <= i < |s| => if s[i] == from then to else s[i])
  }

  function CleanDnsName(s: string): string {
    ReplaceChar(ReplaceChar(ToLower(s), '_', '-'), '@', '-')
  }

  function TrimLabPrefix(session: string): string {
    if HasPrefix(session, LAB_PREFIX) then session[|LAB_PREFIX|..] else session
  }

  function WorkspaceHostname(session: string, domain: string): string {
    "workspace-" + CleanDnsName(TrimLabPrefix(session)) + "." + domain
  }

  function ServiceHostname(service: string, userId: string, domain: string): string {
    service + "-" + userId + ".web." + domain
  }

  /** Characters a Kubernetes object name may hold (section 2.1 of RFC 1123, plus the dot). */
  predicate DnsChar(c: char) {
    'a' <= c <= 'z' || '0' <= c <= '9' || c == '-' || c == '.'
  }

  predicate DnsName(s: string) {
    forall i :: 0 <= i < |s| ==> DnsChar(s[i])
  }

  lemma CleanDnsNamePointwise(s: string)
    ensures |CleanDnsName(s)| == |s|
    ensures forall i :: 0 <= i < |s| ==> CleanDnsName(s)[i] == CleanChar(s[i])
  {
  }

  /** Cleaning removes '_', '@' and upper case, and a second pass changes nothing. */
  lemma CleanDnsNameIdempotent(s: string)
    ensures CleanDnsName(CleanDnsName(s)) == CleanDnsName(s)
    ensures forall c :: c in CleanDnsName(s) ==> c != '_' && c != '@' && !('A' <= c <= 'Z')
  {
    CleanDnsNamePointwise(s);
    CleanDnsNamePointwise(CleanDnsName(s));
  }

  /** A name is a fixed point of cleaning exactly when it holds none of the rewritten characters. */
  lemma CleanDnsNameFixpoint(s: string)
    ensures CleanDnsName(s) == s <==> forall i :: 0 <= i < |s| ==> s[i] != '_' && s[i] != '@' && !('A' <= s[i] <= 'Z')
  {
    CleanDnsNamePointwise(s);
    if CleanDnsName(s) == s {
      forall i | 0 <= i < |s| ensures s[i] != '_' && s[i] != '@' && !('A' <= s[i] <= 'Z') {
        assert CleanDnsName(s)[i] == CleanChar(s[i]);
      }
    }
  }

  /** The same letter, first in upper and then in lower case. */
  predicate Cases(upper: char, lower: char) {
    'A' <= upper <= 'Z' && 'a' <= lower <= 'z' && upper as int - 'A' as int == lower as int - 'a' as int
  }

  /** Characters that cleaning makes alike: the dash and what it stands for, or the two cases
      of one letter. */
  predicate Alike(a: char, b: char) {
    a == b || (a in "-_@" && b in "-_@") || Cases(a, b) || Cases(b, a)
  }

  lemma CleanCharAlike(a: char, b: char)
    ensures CleanChar(a) == CleanChar(b) <==> Alike(a, b)
  {
  }

  /** Two names clean alike exactly when they differ in nothing but letter case and the choice
      among '-', '_' and '@'. */
  lemma CleanDnsNameCollisions(a: string, b: string)
    ensures CleanDnsName(a) == CleanDnsName(b)
      <==> |a| == |b| && forall i :: 0 <= i < |a| ==> Alike(a[i], b[i])
  {
    CleanDnsNamePointwise(a);
    CleanDnsNamePointwise(b);
    var x, y := CleanDnsName(a), CleanDnsName(b);
    if |a| == |b| {
      forall i | 0 <= i < |a| ensures x[i] == y[i] <==> Alike(a[i], b[i]) {
        CleanCharAlike(a[i], b[i]);
      }
    }
  }

  /** The workspace host of a session with a valid name: a "lab-" in front is left out. */
  lemma WorkspaceHostnameIs(name: string, domain: string)
    requires DnsName(name)
    ensures WorkspaceHostname(LAB_PREFIX + name, domain) == "workspace-" + name + "." + domain
    ensures !HasPrefix(name, LAB_PREFIX) ==> WorkspaceHostname(name, domain) == "workspace-" + name + "." + domain
  {
    assert (LAB_PREFIX + name)[..4] == LAB_PREFIX && (LAB_PREFIX + name)[4..] == name;
    CleanDnsNameFixpoint(name);
  }

  lemma HostnamesEqual(a: string, b: string, domain: string)
    ensures WorkspaceHostname(a, domain) == WorkspaceHostname(b, domain)
      <==> CleanDnsName(TrimLabPrefix(a)) == CleanDnsName(TrimLabPrefix(b))
  {
    var x, y := CleanDnsName(TrimLabPrefix(a)), CleanDnsName(TrimLabPrefix(b));
    var p := "workspace-";
    if WorkspaceHostname(a, domain) == WorkspaceHostname(b, domain) {
      assert WorkspaceHostname(a, domain) == p + (x + ("." + domain));
      assert WorkspaceHostname(b, domain) == p + (y + ("." + domain));
      PrefixCancels(p, x + ("." + domain), y + ("." + domain));
      var u := x + ("." + domain);
      assert |x| == |y|;
      assert x == u[..|x|] && y == u[..|y|];
    }
  }

  /**
   * Two sessions with valid Kubernetes names share a workspace host name exactly when
   * they are the same session, or one is the other with "lab-" put in front of a name
   * that does not carry that prefix itself.
   */
  lemma WorkspaceHostnameCollisions(a: string, b: string, domain: string)
    requires DnsName(a) && DnsName(b)
    ensures WorkspaceHostname(a, domain) == WorkspaceHostname(b, domain)
      <==> a == b
           || (a == LAB_PREFIX + b && !HasPrefix(b, LAB_PREFIX))
           || (b == LAB_PREFIX + a && !HasPrefix(a, LAB_PREFIX))
  {
    HostnamesEqual(a, b, domain);
    var x, y := TrimLabPrefix(a), TrimLabPrefix(b);
    assert DnsName(x) && DnsName(y);
    CleanDnsNameFixpoint(x);
    CleanDnsNameFixpoint(y);
    if HasPrefix(a, LAB_PREFIX) { assert a == LAB_PREFIX + x; }
    if HasPrefix(b, LAB_PREFIX) { assert b == LAB_PREFIX + y; }
    if a == LAB_PREFIX + b { assert a[..4] == LAB_PREFIX && a[4..] == b; }
    if b == LAB_PREFIX + a { assert b[..4] == LAB_PREFIX && b[4..] == a; }
  }

  /** On names that carry the "lab-" prefix the workspace host name is unique. */
  lemma WorkspaceHostnameInjective(a: string, b: string, domain: string)
    requires DnsName(a) && DnsName(b) && HasPrefix(a, LAB_PREFIX) && HasPrefix(b, LAB_PREFIX)
    ensures WorkspaceHostname(a, domain) == WorkspaceHostname(b, domain) <==> a == b
  {
    WorkspaceHostnameCollisions(a, b, domain);
  }

  /** A challenge host name never equals the host name of the workspace of session k,
      when the service is named like that session's workspace route. */
  lemma RouteNamesakeHostDiffers(k: string, userId: string, domain: string)
    ensures ServiceHostname(WorkspaceRouteName(k), userId, domain) != WorkspaceHostname(k, domain)
  {
    CleanDnsNamePointwise(TrimLabPrefix(k));
  }

  /** Two challenges share a host name exactly when service and user are the same, or one
      service name is the other with "-w" behind it while the other's user starts with "w-". */
  lemma ServiceHostnameCollisions(service: string, user: string, other: string, otherUser: string, domain: string)
    ensures ServiceHostname(service, user, domain) == ServiceHostname(other, otherUser, domain)
      <==> (service == other && user == otherUser)
           || Extends(service, user, other, otherUser)
           || Extends(other, otherUser, service, user)
  {
    var tail := ".web." + domain;
    assert ServiceHostname(service, user, domain) == (service + "-" + user) + tail;
    assert ServiceHostname(other, otherUser, domain) == (other + "-" + otherUser) + tail;
    SuffixCancels(service + "-" + user, other + "-" + otherUser, tail);
    JoinCollisions(service, user, other, otherUser);
  }

  /** One service has different host names exactly for different users. */
  lemma ServiceHostnameOfUser(service: string, a: string, b: string, domain: string)
    ensures ServiceHostname(service, a, domain) == ServiceHostname(service, b, domain) <==> a == b
  {
    ServiceHostnameCollisions(service, a, service, b, domain);
  }

  /** So challenge host names are not unique across users: an instance. */
  lemma ServiceHostnameClash(domain: string)
    ensures ServiceHostname("web-a", "t1", domain) == ServiceHostname("web", "a-t1", domain)
  {
    assert Extends("web-a", "t1", "web", "a-t1");
    ServiceHostnameCollisions("web-a", "t1", "web", "a-t1", domain);
  }
}
