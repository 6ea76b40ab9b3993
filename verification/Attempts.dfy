/** One reconcile with nothing else going on, cut short anywhere or not at all. */
module Attempts {
  import opened Common
  import opened Names
  import opened Objects
  import opened Phases
  import opened Actions
  import opened Plans
  import opened StatusSync
  import opened Protocol

  // ------------------------------------------------------------------ random draws

  function EraseDraws(pods: seq<Pod>): seq<Pod> {
    seq(|pods|, i requires 0 <= i < |pods| => pods[i].(draw := 0))
  }

  function Erase(ns: Option<Namespace>): Option<Namespace> {
    if ns.None? then None else Some(ns.value.(pods := EraseDraws(ns.value.pods)))
  }

  lemma EraseKeepsNames(pods: seq<Pod>, name: string)
    ensures HasPod(EraseDraws(pods), name) <==> HasPod(pods, name)
  {
    if HasPod(pods, name) {
      var i :| 0 <= i < |pods| && pods[i].name == name;
      assert EraseDraws(pods)[i].name == name;
    }
    if HasPod(EraseDraws(pods), name) {
      var i :| 0 <= i < |pods| && EraseDraws(pods)[i].name == name;
      assert pods[i].name == name;
    }
  }

  lemma EraseApply(a: Action, who: Birth, draw: nat, ns: Option<Namespace>)
    ensures Erase(Apply(a, who, draw, ns)) == Apply(a, who, 0, Erase(ns))
    ensures Admits(a, Erase(ns)) <==> Admits(a, ns)
  {
    if ns.Some? {
      var pods := ns.value.pods;
      if a.CreatePod? {
        EraseKeepsNames(pods, a.template.name);
      }
      assert EraseDraws(ApplyPods(a, who, draw, pods)) == ApplyPods(a, who, 0, EraseDraws(pods));
    } else {
      assert EraseDraws([]) == [];
    }
  }

  lemma {:induction false} PhaseIgnoresDraws(pods: seq<Pod>)
    ensures FirstVerdict(EraseDraws(pods)) == FirstVerdict(pods)
    ensures ComputePhase(EraseDraws(pods)) == ComputePhase(pods)
    decreases |pods|
  {
    var erased := EraseDraws(pods);
    if pods != [] {
      PhaseIgnoresDraws(pods[1..]);
      assert erased[1..] == EraseDraws(pods[1..]);
      assert PodVerdict(erased[0]) == PodVerdict(pods[0]);
      forall i | 0 <= i < |pods| ensures erased[i].status.containers == pods[i].status.containers {}
    }
  }

  // ---------------------------------------------------------------- running a plan

  /** The environment stays still during the calls. */
  ghost predicate Quiet(turns: nat -> Turn) {
    forall i: nat :: turns(i).env == []
  }

  ghost predicate AllDone(turns: nat -> Turn) {
    Quiet(turns) && forall i: nat :: turns(i).outcome.Done?
  }

  /** Only the namespace of k may differ. */
  predicate SameButNamespace(c: Cluster, d: Cluster, k: string) {
    d == c.(namespaces := d.namespaces)
    && d.namespaces - {NamespaceOf(k)} == c.namespaces - {NamespaceOf(k)}
  }

  lemma ActErased(c: Cluster, k: string, a: Action, who: Birth, o: Outcome)
    ensures var (c', ok) := Act(c, k, a, who, o);
      && SameButNamespace(c, c', k)
      && (c' == c || (Admits(a, Erase(NamespaceAt(c, k)))
                      && Erase(NamespaceAt(c', k)) == Apply(a, who, 0, Erase(NamespaceAt(c, k)))))
      && (ok ==> Admits(a, Erase(NamespaceAt(c, k)))
                 && Erase(NamespaceAt(c', k)) == Apply(a, who, 0, Erase(NamespaceAt(c, k))))
      && (o.Done? ==> (ok <==> Admits(a, Erase(NamespaceAt(c, k)))))
  {
    EraseApply(a, who, DrawOf(o), NamespaceAt(c, k));
    var c' := Act(c, k, a, who, o).0;
    assert c'.namespaces - {NamespaceOf(k)} == c.namespaces - {NamespaceOf(k)};
  }

  /** Every one of the actions was let through, and together they lead from one namespace to
      the other. */
  predicate Through(acts: seq<Action>, who: Birth, before: Option<Namespace>, after: Option<Namespace>) {
    Admissible(acts, who, before) && after == Exec(acts, who, before)
  }

  /** How far a stretch of calls got: the state after `done` of them, at turn `turn`. */
  datatype Progress = Progress(cluster: Cluster, turn: nat, done: nat)

  ghost predicate Ran(c: Cluster, k: string, who: Birth, todo: seq<Action>, p: Progress) {
    && p.done <= |todo|
    && SameButNamespace(c, p.cluster, k)
    && Through(todo[..p.done], who, Erase(NamespaceAt(c, k)), Erase(NamespaceAt(p.cluster, k)))
  }

  lemma RanMore(c: Cluster, c1: Cluster, k: string, who: Birth, todo: seq<Action>, p: Progress)
    requires todo != [] && SameButNamespace(c, c1, k)
    requires Erase(NamespaceAt(c1, k)) == Apply(todo[0], who, 0, Erase(NamespaceAt(c, k)))
    requires Admits(todo[0], Erase(NamespaceAt(c, k)))
    requires Ran(c1, k, who, todo[1..], p)
    ensures Ran(c, k, who, todo, p.(done := p.done + 1))
  {
    assert todo[..p.done + 1][1..] == todo[1..][..p.done];
    assert todo[..p.done + 1][0] == todo[0];
  }

  /** The setup calls run some way; if all of them succeed the reconcile goes on, otherwise
      it stops with an error. With every call done, they all succeed exactly when the plan
      goes through. */
  lemma {:induction false} DriveSetup(cfg: Config, k: string, s: Session, space: Space, todo: seq<Action>, c: Cluster,
                                      turns: nat -> Turn, i: nat)
    returns (p: Progress, stopped: bool)
    requires Quiet(turns)
    ensures Ran(c, k, WhoOf(s, space), todo, p)
    ensures stopped ==> Drive(cfg, k, SettingUp(cfg, s, space, todo), c, turns, i) == (Idle(Error), p.cluster, p.turn)
    ensures !stopped ==> p.done == |todo|
    ensures !stopped ==>
      Drive(cfg, k, SettingUp(cfg, s, space, todo), c, turns, i)
        == Drive(cfg, k, SettingUp(cfg, s, space, []), p.cluster, turns, p.turn)
    ensures AllDone(turns) ==> (!stopped <==> Admissible(todo, WhoOf(s, space), Erase(NamespaceAt(c, k))))
    decreases |todo|
  {
    var who := WhoOf(s, space);
    if todo == [] {
      return Progress(c, i, 0), false;
    }
    var o := turns(i).outcome;
    var (c1, ok) := Act(c, k, todo[0], who, o);
    ActErased(c, k, todo[0], who, o);
    assert EnvRun(c, turns(i).env) == c;
    if ok {
      var q, st := DriveSetup(cfg, k, s, space, todo[1..], c1, turns, i + 1);
      RanMore(c, c1, k, who, todo, q);
      return q.(done := q.done + 1), st;
    } else if c1 == c {
      assert todo[..0] == [];
      return Progress(c, i + 1, 0), true;
    } else {
      assert todo[..1] == [todo[0]] && todo[..1][1..] == [];
      return Progress(c1, i + 1, 1), true;
    }
  }

  /** The same for the workspace and service calls. */
  lemma {:induction false} DriveWork(cfg: Config, k: string, s: Session, space: Space, svcs: seq<LabService>,
                                     todo: seq<Action>, c: Cluster, turns: nat -> Turn, i: nat)
    returns (p: Progress, stopped: bool)
    requires Quiet(turns)
    ensures Ran(c, k, WhoOf(s, space), todo, p)
    ensures stopped
      ==> Drive(cfg, k, Working(s, space, svcs, todo, c.clock), c, turns, i) == (Idle(Error), p.cluster, p.turn)
    ensures !stopped ==> p.done == |todo|
    ensures !stopped ==>
      Drive(cfg, k, Working(s, space, svcs, todo, c.clock), c, turns, i)
      == Drive(cfg, k, ListForStatus(s, space, svcs, c.clock), p.cluster, turns, p.turn)
    ensures AllDone(turns) ==> (!stopped <==> Admissible(todo, WhoOf(s, space), Erase(NamespaceAt(c, k))))
    decreases |todo|
  {
    var who := WhoOf(s, space);
    if todo == [] {
      return Progress(c, i, 0), false;
    }
    var o := turns(i).outcome;
    var (c1, ok) := Act(c, k, todo[0], who, o);
    ActErased(c, k, todo[0], who, o);
    assert EnvRun(c, turns(i).env) == c;
    if ok {
      var q, st := DriveWork(cfg, k, s, space, svcs, todo[1..], c1, turns, i + 1);
      RanMore(c, c1, k, who, todo, q);
      return q.(done := q.done + 1), st;
    } else if c1 == c {
      assert todo[..0] == [];
      return Progress(c, i + 1, 0), true;
    } else {
      assert todo[..1] == [todo[0]] && todo[..1][1..] == [];
      return Progress(c1, i + 1, 1), true;
    }
  }

  // ------------------------------------------------------------ a whole live attempt

  /** Neither deleting nor expired, no restart pending, and the space exists. */
  predicate Live(c: Cluster, k: string) {
    k in c.sessions &&
    var s := c.sessions[k];
    s.finalizer && !s.deleting && !Expired(s, c.clock) && !RestartPending(s) && s.spaceRef in c.spaces
  }

  function SpaceOf(c: Cluster, k: string): Space
    requires Live(c, k)
  {
    c.spaces[c.sessions[k].spaceRef]
  }

  function ServicesOf(cfg: Config, c: Cluster, k: string): seq<LabService>
    requires Live(c, k)
  {
    cfg.Selected(SpaceOf(c, k).selector, c.services)
  }

  function PlanOf(cfg: Config, c: Cluster, k: string): seq<Action>
    requires Live(c, k)
  {
    FullPlan(cfg, k, c.sessions[k].userId, SpaceOf(c, k), ServicesOf(cfg, c, k))
  }

  function WhoAt(c: Cluster, k: string): Birth
    requires Live(c, k)
  {
    WhoOf(c.sessions[k], SpaceOf(c, k))
  }

  function SyncedAt(cfg: Config, c: Cluster, k: string, pods: seq<Pod>): (Status, bool)
    requires Live(c, k)
  {
    Synced(cfg, k, c.sessions[k].userId, c.sessions[k].status, SpaceOf(c, k), ServicesOf(cfg, c, k), pods, c.clock)
  }

  /** The session after its status was written. */
  function WrittenAt(cfg: Config, c: Cluster, k: string, pods: seq<Pod>): Session
    requires Live(c, k)
  {
    var s := c.sessions[k];
    s.(status := Stored(SyncedAt(cfg, c, k, pods).0), version := s.version + 1)
  }

  /** The requeue delay after the status pass. */
  function DelayAt(cfg: Config, c: Cluster, k: string, pods: seq<Pod>): (r: int)
    requires Live(c, k)
    ensures 0 < r <= MINUTE
  {
    var (status, changed) := SyncedAt(cfg, c, k, pods);
    RequeueBounds(status, c.clock);
    RequeueBounds(Stored(status), c.clock);
    Requeue(if changed then Stored(status) else status, c.clock)
  }

  /** What an attempt that got through `done` calls of the plan leaves behind. */
  ghost predicate Leaves(cfg: Config, c: Cluster, k: string, l: Local, d: Cluster, done: nat)
    requires Live(c, k)
  {
    var plan := PlanOf(cfg, c, k);
    && done <= |plan|
    && l.Idle?
    && d == c.(namespaces := d.namespaces, sessions := d.sessions)
    && d.namespaces - {NamespaceOf(k)} == c.namespaces - {NamespaceOf(k)}
    && Through(plan[..done], WhoAt(c, k), Erase(NamespaceAt(c, k)), Erase(NamespaceAt(d, k)))
    && (d.sessions == c.sessions
        || (done == |plan| && SyncedAt(cfg, c, k, PodsAt(d, k)).1
            && d.sessions == c.sessions[k := WrittenAt(cfg, c, k, PodsAt(d, k))]))
    && (l.result.After? ==>
          && done == |plan|
          && d.sessions == (if SyncedAt(cfg, c, k, PodsAt(d, k)).1
                            then c.sessions[k := WrittenAt(cfg, c, k, PodsAt(d, k))]
                            else c.sessions)
          && l.result.delay == DelayAt(cfg, c, k, PodsAt(d, k)))
  }

  lemma DriveStep(cfg: Config, k: string, l: Local, c: Cluster, turns: nat -> Turn, i: nat)
    requires Quiet(turns)
    ensures l.Idle? ==> Drive(cfg, k, l, c, turns, i) == (l, c, i)
    ensures !l.Idle? ==> var (l', c') := Step(cfg, k, l, c, turns(i).outcome);
      Drive(cfg, k, l, c, turns, i) == Drive(cfg, k, l', c', turns, i + 1)
  {
    assert EnvRun(c, turns(i).env) == c;
  }

  /** The status call writes what it was given, or nothing. */
  lemma WriteStep(cfg: Config, k: string, s: Session, d: Cluster, o: Outcome)
    requires k in d.sessions && d.sessions[k] == s.(status := d.sessions[k].status) && !s.deleting
    ensures var (l', d') := Step(cfg, k, WriteStatus(s), d, o);
      var written := d.(sessions := d.sessions[k := s.(status := Stored(s.status), version := s.version + 1)]);
      && (d' == d || d' == written) && l'.Idle?
      && (l'.result.After? ==> d' == written && l'.result.delay == Requeue(Stored(s.status), d.clock))
      && (o.Done? ==> l'.result.After?)
  {
  }

  lemma SyncStep(cfg: Config, k: string, c: Cluster, d: Cluster, o: Outcome)
    requires Live(c, k) && SameButNamespace(c, d, k)
    ensures var l0 := ListForStatus(c.sessions[k], SpaceOf(c, k), ServicesOf(cfg, c, k), c.clock);
      var (status, changed) := SyncedAt(cfg, c, k, PodsAt(d, k));
      Step(cfg, k, l0, d, o)
        == (if !o.Done? then Idle(Error)
            else if changed then WriteStatus(c.sessions[k].(status := status))
            else Idle(After(Requeue(status, d.clock))), d)
  {
  }

  lemma WriteOutcome(cfg: Config, k: string, c: Cluster, d: Cluster, o: Outcome)
    requires Live(c, k) && SameButNamespace(c, d, k)
    requires Through(PlanOf(cfg, c, k), WhoAt(c, k), Erase(NamespaceAt(c, k)), Erase(NamespaceAt(d, k)))
    requires SyncedAt(cfg, c, k, PodsAt(d, k)).1
    ensures var s := c.sessions[k].(status := SyncedAt(cfg, c, k, PodsAt(d, k)).0);
      var (l, e) := Step(cfg, k, WriteStatus(s), d, o);
      Leaves(cfg, c, k, l, e, |PlanOf(cfg, c, k)|) && (o.Done? ==> l.result.After?)
  {
    var s := c.sessions[k].(status := SyncedAt(cfg, c, k, PodsAt(d, k)).0);
    WriteStep(cfg, k, s, d, o);
    var (l, e) := Step(cfg, k, WriteStatus(s), d, o);
    assert s.(status := Stored(s.status), version := s.version + 1) == WrittenAt(cfg, c, k, PodsAt(d, k));
    LeavesAfterWrite(cfg, c, k, d, l, e);
  }

  lemma WritePhase(cfg: Config, k: string, c: Cluster, d: Cluster, turns: nat -> Turn, i: nat)
    requires Quiet(turns) && Live(c, k) && SameButNamespace(c, d, k)
    requires Through(PlanOf(cfg, c, k), WhoAt(c, k), Erase(NamespaceAt(c, k)), Erase(NamespaceAt(d, k)))
    requires SyncedAt(cfg, c, k, PodsAt(d, k)).1
    ensures var s := c.sessions[k].(status := SyncedAt(cfg, c, k, PodsAt(d, k)).0);
      var (l, e, _) := Drive(cfg, k, WriteStatus(s), d, turns, i);
      && Leaves(cfg, c, k, l, e, |PlanOf(cfg, c, k)|)
      && (AllDone(turns) ==> l.result.After?)
  {
    var s := c.sessions[k].(status := SyncedAt(cfg, c, k, PodsAt(d, k)).0);
    WriteOutcome(cfg, k, c, d, turns(i).outcome);
    var (l, e) := Step(cfg, k, WriteStatus(s), d, turns(i).outcome);
    DriveStep(cfg, k, WriteStatus(s), d, turns, i);
    DriveStep(cfg, k, l, e, turns, i + 1);
  }

  lemma StatusPhase(cfg: Config, k: string, c: Cluster, d: Cluster, turns: nat -> Turn, i: nat)
    requires Quiet(turns) && Live(c, k) && SameButNamespace(c, d, k)
    requires Through(PlanOf(cfg, c, k), WhoAt(c, k), Erase(NamespaceAt(c, k)), Erase(NamespaceAt(d, k)))
    ensures var (l, e, _) := Drive(cfg, k, ListForStatus(c.sessions[k], SpaceOf(c, k), ServicesOf(cfg, c, k), c.clock),
                                   d, turns, i);
      && Leaves(cfg, c, k, l, e, |PlanOf(cfg, c, k)|)
      && (AllDone(turns) ==> l.result.After?)
  {
    var l0 := ListForStatus(c.sessions[k], SpaceOf(c, k), ServicesOf(cfg, c, k), c.clock);
    var l1 := Step(cfg, k, l0, d, turns(i).outcome).0;
    SyncStep(cfg, k, c, d, turns(i).outcome);
    DriveStep(cfg, k, l0, d, turns, i);
    if l1.WriteStatus? {
      WritePhase(cfg, k, c, d, turns, i + 1);
    } else {
      DriveStep(cfg, k, l1, d, turns, i + 1);
      LeavesAfterRead(cfg, c, k, d, l1);
    }
  }

  lemma LeavesAfterRead(cfg: Config, c: Cluster, k: string, d: Cluster, l: Local)
    requires Live(c, k) && SameButNamespace(c, d, k) && l.Idle?
    requires Through(PlanOf(cfg, c, k), WhoAt(c, k), Erase(NamespaceAt(c, k)), Erase(NamespaceAt(d, k)))
    requires l.result.After?
      ==> !SyncedAt(cfg, c, k, PodsAt(d, k)).1 && l.result.delay == DelayAt(cfg, c, k, PodsAt(d, k))
    ensures Leaves(cfg, c, k, l, d, |PlanOf(cfg, c, k)|)
  {
    var plan := PlanOf(cfg, c, k);
    assert plan[..|plan|] == plan;
  }

  lemma LeavesAfterWrite(cfg: Config, c: Cluster, k: string, d: Cluster, l: Local, e: Cluster)
    requires Live(c, k) && SameButNamespace(c, d, k) && l.Idle?
    requires Through(PlanOf(cfg, c, k), WhoAt(c, k), Erase(NamespaceAt(c, k)), Erase(NamespaceAt(d, k)))
    requires SyncedAt(cfg, c, k, PodsAt(d, k)).1
    requires e == d || e == d.(sessions := d.sessions[k := WrittenAt(cfg, c, k, PodsAt(d, k))])
    requires l.result.After? ==> e != d && l.result.delay == DelayAt(cfg, c, k, PodsAt(d, k))
    ensures Leaves(cfg, c, k, l, e, |PlanOf(cfg, c, k)|)
  {
    var plan := PlanOf(cfg, c, k);
    assert plan[..|plan|] == plan;
    assert NamespaceAt(e, k) == NamespaceAt(d, k);
    assert PodsAt(e, k) == PodsAt(d, k);
  }

  lemma {:induction false} AdmissibleConcat(a: seq<Action>, b: seq<Action>, who: Birth, ns: Option<Namespace>)
    ensures Admissible(a + b, who, ns) <==> Admissible(a, who, ns) && Admissible(b, who, Exec(a, who, ns))
    decreases |a|
  {
    if a == [] {
      assert a + b == b;
    } else {
      assert (a + b)[1..] == a[1..] + b;
      AdmissibleConcat(a[1..], b, who, Apply(a[0], who, 0, ns));
    }
  }

  /** An attempt that stopped among the calls of the plan. */
  lemma LeavesEarly(cfg: Config, c: Cluster, k: string, d: Cluster, done: nat)
    requires Live(c, k) && SameButNamespace(c, d, k) && done <= |PlanOf(cfg, c, k)|
    requires Through(PlanOf(cfg, c, k)[..done], WhoAt(c, k), Erase(NamespaceAt(c, k)), Erase(NamespaceAt(d, k)))
    ensures Leaves(cfg, c, k, Idle(Error), d, done)
  {
  }

  lemma ToSetup(cfg: Config, k: string, c: Cluster, turns: nat -> Turn)
    requires Quiet(turns) && Live(c, k)
    ensures var s, space := c.sessions[k], SpaceOf(c, k);
      if turns(0).outcome.Done? && turns(1).outcome.Done?
      then Drive(cfg, k, Begin, c, turns, 0)
        == Drive(cfg, k, SettingUp(cfg, s, space, SetupPlan(cfg, space)), c, turns, 2)
      else exists i :: Drive(cfg, k, Begin, c, turns, 0) == (Idle(Error), c, i)
  {
    var s, space := c.sessions[k], SpaceOf(c, k);
    DriveStep(cfg, k, Begin, c, turns, 0);
    if turns(0).outcome.Done? {
      DriveStep(cfg, k, FetchSpace(s), c, turns, 1);
      if !turns(1).outcome.Done? {
        DriveStep(cfg, k, Idle(Error), c, turns, 2);
      }
    } else {
      DriveStep(cfg, k, Idle(Error), c, turns, 1);
    }
  }

  lemma ToWork(cfg: Config, k: string, c: Cluster, d: Cluster, turns: nat -> Turn, i: nat)
    requires Quiet(turns) && Live(c, k) && SameButNamespace(c, d, k)
    ensures var s, space, svcs := c.sessions[k], SpaceOf(c, k), ServicesOf(cfg, c, k);
      if turns(i).outcome.Done?
      then Drive(cfg, k, SettingUp(cfg, s, space, []), d, turns, i)
        == Drive(cfg, k, Working(s, space, svcs, WorkPlan(cfg, k, s.userId, space, svcs), d.clock), d, turns, i + 1)
      else Drive(cfg, k, SettingUp(cfg, s, space, []), d, turns, i) == (Idle(Error), d, i + 1)
  {
    var s, space := c.sessions[k], SpaceOf(c, k);
    DriveStep(cfg, k, ListForWork(s, space), d, turns, i);
    DriveStep(cfg, k, Idle(Error), d, turns, i + 1);
  }

  lemma SameTransitive(c: Cluster, d: Cluster, e: Cluster, k: string)
    requires SameButNamespace(c, d, k) && SameButNamespace(d, e, k)
    ensures SameButNamespace(c, e, k)
  {
  }

  lemma TakeConcat<T>(a: seq<T>, b: seq<T>, n: nat)
    requires n <= |b|
    ensures (a + b)[..|a| + n] == a + b[..n]
  {
  }

  lemma ThroughJoin(a: seq<Action>, b: seq<Action>, n: nat, who: Birth, n0: Option<Namespace>, n1: Option<Namespace>,
                    n2: Option<Namespace>)
    requires n <= |b| && Through(a, who, n0, n1) && Through(b[..n], who, n1, n2)
    ensures Through((a + b)[..|a| + n], who, n0, n2)
  {
    TakeConcat(a, b, n);
    ExecConcat(a, b[..n], who, n0);
    AdmissibleConcat(a, b[..n], who, n0);
  }

  /** How far along the whole plan a stretch of work calls leads. */
  lemma PlanReached(cfg: Config, k: string, c: Cluster, d: Cluster, work: seq<Action>, q: Progress) returns (done: nat)
    requires Live(c, k) && SameButNamespace(c, d, k)
    requires work == WorkPlan(cfg, k, c.sessions[k].userId, SpaceOf(c, k), ServicesOf(cfg, c, k))
    requires Through(SetupPlan(cfg, SpaceOf(c, k)), WhoAt(c, k), Erase(NamespaceAt(c, k)), Erase(NamespaceAt(d, k)))
    requires Ran(d, k, WhoAt(c, k), work, q)
    ensures SameButNamespace(c, q.cluster, k) && done <= |PlanOf(cfg, c, k)|
    ensures Through(PlanOf(cfg, c, k)[..done], WhoAt(c, k), Erase(NamespaceAt(c, k)), Erase(NamespaceAt(q.cluster, k)))
    ensures q.done == |work| ==> done == |PlanOf(cfg, c, k)| && PlanOf(cfg, c, k)[..done] == PlanOf(cfg, c, k)
  {
    var setup := SetupPlan(cfg, SpaceOf(c, k));
    ThroughJoin(setup, work, q.done, WhoAt(c, k), Erase(NamespaceAt(c, k)), Erase(NamespaceAt(d, k)),
                Erase(NamespaceAt(q.cluster, k)));
    SameTransitive(c, d, q.cluster, k);
    done := |setup| + q.done;
  }

  /** The workspace, service and status calls of a live attempt whose setup is done. */
  lemma WorkAttempt(cfg: Config, k: string, c: Cluster, d: Cluster, turns: nat -> Turn, i: nat) returns (done: nat)
    requires Quiet(turns) && Live(c, k) && SameButNamespace(c, d, k)
    requires Through(SetupPlan(cfg, SpaceOf(c, k)), WhoAt(c, k), Erase(NamespaceAt(c, k)), Erase(NamespaceAt(d, k)))
    ensures var s, space, svcs := c.sessions[k], SpaceOf(c, k), ServicesOf(cfg, c, k);
      var work := WorkPlan(cfg, k, s.userId, space, svcs);
      var (l, e, _) := Drive(cfg, k, Working(s, space, svcs, work, d.clock), d, turns, i);
      && Leaves(cfg, c, k, l, e, done)
      && (AllDone(turns) ==> (l.result.After? <==> Admissible(work, WhoAt(c, k), Erase(NamespaceAt(d, k)))))
  {
    var s, space, svcs := c.sessions[k], SpaceOf(c, k), ServicesOf(cfg, c, k);
    var work := WorkPlan(cfg, k, s.userId, space, svcs);
    var q, halted := DriveWork(cfg, k, s, space, svcs, work, d, turns, i);
    done := PlanReached(cfg, k, c, d, work, q);
    if halted {
      LeavesEarly(cfg, c, k, q.cluster, done);
    } else {
      StatusPhase(cfg, k, c, q.cluster, turns, q.turn);
    }
  }

  /** A live attempt from the end of its setup. */
  lemma AfterSetup(cfg: Config, k: string, c: Cluster, d: Cluster, turns: nat -> Turn, i: nat) returns (done: nat)
    requires Quiet(turns) && Live(c, k) && SameButNamespace(c, d, k)
    requires Through(SetupPlan(cfg, SpaceOf(c, k)), WhoAt(c, k), Erase(NamespaceAt(c, k)), Erase(NamespaceAt(d, k)))
    ensures var s, space, svcs := c.sessions[k], SpaceOf(c, k), ServicesOf(cfg, c, k);
      var work := WorkPlan(cfg, k, s.userId, space, svcs);
      var (l, e, _) := Drive(cfg, k, SettingUp(cfg, s, space, []), d, turns, i);
      && Leaves(cfg, c, k, l, e, done)
      && (AllDone(turns) ==> (l.result.After? <==> Admissible(work, WhoAt(c, k), Erase(NamespaceAt(d, k)))))
  {
    ToWork(cfg, k, c, d, turns, i);
    if turns(i).outcome.Done? {
      done := WorkAttempt(cfg, k, c, d, turns, i + 1);
    } else {
      var setup := SetupPlan(cfg, SpaceOf(c, k));
      assert PlanOf(cfg, c, k)[..|setup|] == setup;
      LeavesEarly(cfg, c, k, d, |setup|);
      done := |setup|;
    }
  }

  /** A live attempt from its first setup call. */
  lemma SetupAttempt(cfg: Config, k: string, c: Cluster, turns: nat -> Turn, i: nat) returns (done: nat)
    requires Quiet(turns) && Live(c, k)
    ensures var s, space := c.sessions[k], SpaceOf(c, k);
      var (l, d, _) := Drive(cfg, k, SettingUp(cfg, s, space, SetupPlan(cfg, space)), c, turns, i);
      && Leaves(cfg, c, k, l, d, done)
      && (AllDone(turns)
          ==> (l.result.After? <==> Admissible(PlanOf(cfg, c, k), WhoAt(c, k), Erase(NamespaceAt(c, k)))))
  {
    var s, space, svcs := c.sessions[k], SpaceOf(c, k), ServicesOf(cfg, c, k);
    var setup, work := SetupPlan(cfg, space), WorkPlan(cfg, k, s.userId, space, svcs);
    AdmissibleConcat(setup, work, WhoAt(c, k), Erase(NamespaceAt(c, k)));
    var p, stopped := DriveSetup(cfg, k, s, space, setup, c, turns, i);
    PrefixOfConcat(setup, work, p.done);
    if stopped {
      LeavesEarly(cfg, c, k, p.cluster, p.done);
      done := p.done;
    } else {
      assert setup[..p.done] == setup;
      done := AfterSetup(cfg, k, c, p.cluster, turns, p.turn);
    }
  }

  lemma PrefixOfConcat<T>(a: seq<T>, b: seq<T>, n: nat)
    requires n <= |a|
    ensures (a + b)[..n] == a[..n]
  {
  }

  /** A live attempt runs a prefix of the plan; only when the whole plan is done does it
      write the status, and only then can it report success. If no call fails by itself it
      succeeds exactly when the plan goes through. */
  lemma LiveAttempt(cfg: Config, k: string, c: Cluster, turns: nat -> Turn) returns (done: nat)
    requires Quiet(turns) && Live(c, k)
    ensures var (l, d, _) := Drive(cfg, k, Begin, c, turns, 0);
      && Leaves(cfg, c, k, l, d, done)
      && (AllDone(turns)
          ==> (l.result.After? <==> Admissible(PlanOf(cfg, c, k), WhoAt(c, k), Erase(NamespaceAt(c, k)))))
  {
    ToSetup(cfg, k, c, turns);
    if turns(0).outcome.Done? && turns(1).outcome.Done? {
      done := SetupAttempt(cfg, k, c, turns, 2);
    } else {
      assert PlanOf(cfg, c, k)[..0] == [];
      LeavesEarly(cfg, c, k, c, 0);
      done := 0;
    }
  }
}
