/** Classification of a session from the pods in its namespace. */
module Phases {
  import opened Common
  import opened Objects

  datatype Verdict = Verdict(phase: Phase, message: Message)

  // ------------------------------------------------------------- the classification

  function FirstWaiting(containers: seq<ContainerStatus>): Option<string> {
    if containers == [] then None
    else if containers[0].waiting.Some? then containers[0].waiting
    else FirstWaiting(containers[1..])
  }

  function WaitingVerdict(reason: string): Verdict {
    if reason == "ImagePullBackOff" || reason == "ErrImagePull" then Verdict(Pending, PullingImage)
    else if reason == "CrashLoopBackOff" then Verdict(Failed, Crashing)
    else if reason == "ContainerCreating" || reason == "PodInitializing" then Verdict(Pending, StartingDesktop)
    else Verdict(Pending, StartingContainers)
  }

  predicate ProvisionerRunning(init: seq<InitStatus>) {
    exists i :: 0 <= i < |init| && init[i].name == "provisioner" && init[i].running
  }

  /** The verdict one pod forces in the first pass, if any. */
  function PodVerdict(pod: Pod): Option<Verdict> {
    if pod.terminating then Some(Verdict(Pending, Recreating))
    else if ProvisionerRunning(pod.status.init) then Some(Verdict(Pending, DownloadingAssets))
    else if FirstWaiting(pod.status.containers).Some? then
      Some(WaitingVerdict(FirstWaiting(pod.status.containers).value))
    else if pod.status.phase == PodFailed then Some(Verdict(Failed, StartFailed))
    else if pod.status.phase != PodRunning then Some(Verdict(Pending, Scheduling))
    else None
  }

  function FirstVerdict(pods: seq<Pod>): Option<Verdict> {
    if pods == [] then None
    else if PodVerdict(pods[0]).Some? then PodVerdict(pods[0])
    else FirstVerdict(pods[1..])
  }

  predicate AllReady(containers: seq<ContainerStatus>) {
    forall i :: 0 <= i < |containers| ==> containers[i].ready
  }

  function ComputePhase(pods: seq<Pod>): Verdict {
    if pods == [] then Verdict(Pending, Provisioning)
    else if FirstVerdict(pods).Some? then FirstVerdict(pods).value
    else if exists i :: 0 <= i < |pods| && !AllReady(pods[i].status.containers) then Verdict(Pending, WaitingReady)
    else Verdict(Running, LabReady)
  }

  // ----------------------------------------------------------- a declarative reading

  predicate Provisions(pod: Pod) {
    exists s :: s in pod.status.init && s.name == "provisioner" && s.running
  }

  predicate NothingWaits(pod: Pod) {
    forall c :: c in pod.status.containers ==> c.waiting.None?
  }

  /** The first waiting container of the pod gives this reason. */
  predicate WaitsWith(pod: Pod, reason: string) {
    exists i :: && 0 <= i < |pod.status.containers| && pod.status.containers[i].waiting == Some(reason)
                && forall j :: 0 <= j < i ==> pod.status.containers[j].waiting.None?
  }

  /** Alive, past provisioning and running, with nothing waiting: settled but for readiness. */
  predicate Settled(pod: Pod) {
    !pod.terminating && !Provisions(pod) && NothingWaits(pod) && pod.status.phase == PodRunning
  }

  /** A pod that lets the session count as running. */
  predicate Steady(pod: Pod) {
    Settled(pod) && forall c :: c in pod.status.containers ==> c.ready
  }

  /** Pod i is the first in list order that is not settled. */
  predicate FirstUnsettled(pods: seq<Pod>, i: int) {
    0 <= i < |pods| && !Settled(pods[i]) && forall j :: 0 <= j < i ==> Settled(pods[j])
  }

  /** A pod past provisioning that is not going away: its containers decide. */
  predicate Judged(pod: Pod) {
    !pod.terminating && !Provisions(pod)
  }

  predicate CrashLoops(pod: Pod) {
    Judged(pod) && WaitsWith(pod, "CrashLoopBackOff")
  }

  predicate GaveUp(pod: Pod) {
    Judged(pod) && NothingWaits(pod) && pod.status.phase == PodFailed
  }

  lemma {:induction false} FirstWaitingIs(containers: seq<ContainerStatus>)
    ensures FirstWaiting(containers).None? <==> forall c :: c in containers ==> c.waiting.None?
    ensures FirstWaiting(containers).Some? ==>
      exists i :: && 0 <= i < |containers| && containers[i].waiting == FirstWaiting(containers)
                  && forall j :: 0 <= j < i ==> containers[j].waiting.None?
  {
    if containers != [] && containers[0].waiting.None? {
      FirstWaitingIs(containers[1..]);
      assert containers == [containers[0]] + containers[1..];
      if FirstWaiting(containers).Some? {
        var i :| 0 <= i < |containers[1..]| && containers[1..][i].waiting == FirstWaiting(containers)
                 && forall j :: 0 <= j < i ==> containers[1..][j].waiting.None?;
        assert containers[i + 1].waiting == FirstWaiting(containers);
        forall j | 0 <= j < i + 1 ensures containers[j].waiting.None? {
          if j > 0 { assert containers[j] == containers[1..][j - 1]; }
        }
      }
    }
  }

  lemma {:induction false} FirstVerdictIs(pods: seq<Pod>)
    ensures FirstVerdict(pods).None? <==> forall i :: 0 <= i < |pods| ==> PodVerdict(pods[i]).None?
    ensures FirstVerdict(pods).Some? ==>
      exists i :: && 0 <= i < |pods| && PodVerdict(pods[i]) == FirstVerdict(pods)
                  && forall j :: 0 <= j < i ==> PodVerdict(pods[j]).None?
  {
    if pods != [] && PodVerdict(pods[0]).None? {
      FirstVerdictIs(pods[1..]);
      if FirstVerdict(pods).Some? {
        var i :| 0 <= i < |pods[1..]| && PodVerdict(pods[1..][i]) == FirstVerdict(pods)
                 && forall j :: 0 <= j < i ==> PodVerdict(pods[1..][j]).None?;
        assert PodVerdict(pods[i + 1]) == FirstVerdict(pods);
        forall j | 0 <= j < i + 1 ensures PodVerdict(pods[j]).None? {
          if j > 0 { assert pods[j] == pods[1..][j - 1]; }
        }
      } else {
        forall i | 0 <= i < |pods| ensures PodVerdict(pods[i]).None? {
          if i > 0 { assert pods[i] == pods[1..][i - 1]; }
        }
      }
    }
  }

  lemma WaitsIs(pod: Pod, reason: string)
    ensures NothingWaits(pod) <==> FirstWaiting(pod.status.containers).None?
    ensures WaitsWith(pod, reason) <==> FirstWaiting(pod.status.containers) == Some(reason)
  {
    var containers := pod.status.containers;
    FirstWaitingIs(containers);
    forall i | 0 <= i < |containers| ensures containers[i] in containers {}
    if FirstWaiting(containers).Some? {
      var i :| && 0 <= i < |containers| && containers[i].waiting == FirstWaiting(containers)
               && forall j :: 0 <= j < i ==> containers[j].waiting.None?;
      assert containers[i] in containers;
      assert WaitsWith(pod, FirstWaiting(containers).value);
      if WaitsWith(pod, reason) {
        var j :| && 0 <= j < |containers| && containers[j].waiting == Some(reason)
                 && forall n :: 0 <= n < j ==> containers[n].waiting.None?;
        assert i == j;
      }
    }
  }

  lemma ProvisionsIs(pod: Pod)
    ensures Provisions(pod) <==> ProvisionerRunning(pod.status.init)
  {
    var init := pod.status.init;
    if ProvisionerRunning(init) {
      var i :| 0 <= i < |init| && init[i].name == "provisioner" && init[i].running;
      assert init[i] in init;
    }
  }

  lemma PodVerdictNone(pod: Pod)
    ensures PodVerdict(pod).None? <==> Settled(pod)
    ensures AllReady(pod.status.containers) <==> forall c :: c in pod.status.containers ==> c.ready
  {
    WaitsIs(pod, "");
    ProvisionsIs(pod);
    forall i | 0 <= i < |pod.status.containers| ensures pod.status.containers[i] in pod.status.containers {}
  }

  /** The reasons that have a message of their own. */
  const KNOWN_REASONS := ["ImagePullBackOff", "ErrImagePull", "CrashLoopBackOff", "ContainerCreating",
                          "PodInitializing"]

  /** When a pod that is not settled calls for this verdict, in terms of its own status. */
  predicate Explains(pod: Pod, v: Verdict) {
    && (v.phase == Failed <==> CrashLoops(pod) || GaveUp(pod))
    && (v.phase == Pending <==> v.phase != Failed)
    && (v.message == Recreating <==> pod.terminating)
    && (v.message == DownloadingAssets <==> !pod.terminating && Provisions(pod))
    && (v.message == PullingImage
        <==> Judged(pod) && (WaitsWith(pod, "ImagePullBackOff") || WaitsWith(pod, "ErrImagePull")))
    && (v.message == Crashing <==> CrashLoops(pod))
    && (v.message == StartingDesktop
        <==> Judged(pod) && (WaitsWith(pod, "ContainerCreating") || WaitsWith(pod, "PodInitializing")))
    && (v.message == StartingContainers
        <==> Judged(pod) && !NothingWaits(pod) && forall r :: r in KNOWN_REASONS ==> !WaitsWith(pod, r))
    && (v.message == StartFailed <==> GaveUp(pod))
    && (v.message == Scheduling <==> Judged(pod) && NothingWaits(pod) && pod.status.phase != PodFailed)
    && v.message !in {Provisioning, WaitingReady, LabReady}
  }

  lemma UnsettledSays(pod: Pod)
    requires !Settled(pod)
    ensures PodVerdict(pod).Some? && Explains(pod, PodVerdict(pod).value)
  {
    PodVerdictNone(pod);
    ProvisionsIs(pod);
    WaitsIs(pod, "ImagePullBackOff");
    WaitsIs(pod, "ErrImagePull");
    WaitsIs(pod, "CrashLoopBackOff");
    WaitsIs(pod, "ContainerCreating");
    WaitsIs(pod, "PodInitializing");
  }

  lemma Alone(pod: Pod)
    requires !Settled(pod)
    ensures PodVerdict(pod) == Some(ComputePhase([pod]))
  {
    PodVerdictNone(pod);
    assert FirstVerdict([pod]) == PodVerdict(pod);
  }

  lemma FirstUnsettledDecides(pods: seq<Pod>, i: int)
    requires FirstUnsettled(pods, i)
    ensures PodVerdict(pods[i]) == Some(ComputePhase(pods))
  {
    FirstVerdictIs(pods);
    forall j | 0 <= j <= i ensures PodVerdict(pods[j]).None? <==> Settled(pods[j]) {
      PodVerdictNone(pods[j]);
    }
  }

  lemma {:induction false} SomeUnsettled(pods: seq<Pod>) returns (i: nat)
    requires exists p :: p in pods && !Settled(p)
    ensures FirstUnsettled(pods, i)
    decreases |pods|
  {
    if !Settled(pods[0]) {
      return 0;
    }
    i := SomeUnsettled(pods[1..]);
    i := i + 1;
    assert forall j :: 0 < j < i ==> pods[j] == pods[1..][j - 1];
  }

  /** With every pod settled only readiness is left to wait for. */
  lemma SettledVerdict(pods: seq<Pod>)
    requires forall p :: p in pods ==> Settled(p)
    ensures ComputePhase(pods)
         == if pods == [] then Verdict(Pending, Provisioning)
            else if forall p :: p in pods ==> Steady(p) then Verdict(Running, LabReady)
            else Verdict(Pending, WaitingReady)
  {
    FirstVerdictIs(pods);
    forall p | p in pods
      ensures PodVerdict(p).None?
      ensures Steady(p) <==> AllReady(p.status.containers)
    {
      PodVerdictNone(p);
    }
  }

  /** The verdict in terms of the pods' own statuses: the first pod in list order that is not
      settled decides, and says exactly which message and phase; when all are settled, only
      readiness is left. */
  lemma VerdictIff(pods: seq<Pod>)
    ensures forall i :: FirstUnsettled(pods, i) ==> Explains(pods[i], ComputePhase(pods))
    ensures (exists i :: FirstUnsettled(pods, i)) <==> exists p :: p in pods && !Settled(p)
    ensures (forall p :: p in pods ==> Settled(p)) ==>
      ComputePhase(pods) == if pods == [] then Verdict(Pending, Provisioning)
                            else if forall p :: p in pods ==> Steady(p) then Verdict(Running, LabReady)
                            else Verdict(Pending, WaitingReady)
  {
    forall i | FirstUnsettled(pods, i) ensures Explains(pods[i], ComputePhase(pods)) && pods[i] in pods {
      FirstUnsettledDecides(pods, i);
      UnsettledSays(pods[i]);
    }
    if p :| p in pods && !Settled(p) {
      var i := SomeUnsettled(pods);
    } else {
      SettledVerdict(pods);
    }
  }

  /** Failed means: the first pod that is not settled is alive, past provisioning, and either
      its first waiting container crash-loops, or nothing waits and the pod failed. */
  lemma FailedIff(pods: seq<Pod>)
    ensures ComputePhase(pods).phase == Failed
      <==> exists i :: FirstUnsettled(pods, i) && (CrashLoops(pods[i]) || GaveUp(pods[i]))
  {
    VerdictIff(pods);
    if exists p :: p in pods && !Settled(p) {
      var i :| FirstUnsettled(pods, i);
      forall j | FirstUnsettled(pods, j) ensures j == i {}
    }
  }

  /** Running means: some pod exists and every pod is settled; nothing else reports it. */
  lemma RunningIff(pods: seq<Pod>)
    ensures ComputePhase(pods).phase == Running <==> pods != [] && forall p :: p in pods ==> Steady(p)
    ensures ComputePhase(pods).phase == Running <==> ComputePhase(pods) == Verdict(Running, LabReady)
  {
    VerdictIff(pods);
    if exists p :: p in pods && !Settled(p) {
      var i :| FirstUnsettled(pods, i);
    }
  }

  lemma SameElements(a: seq<Pod>, b: seq<Pod>)
    requires multiset(a) == multiset(b)
    ensures forall p :: p in a <==> p in b
    ensures a == [] <==> b == []
  {
    forall p ensures p in a <==> p in b {
      assert p in multiset(a) <==> p in a;
      assert p in multiset(b) <==> p in b;
    }
    assert |a| == |multiset(a)| == |multiset(b)| == |b|;
  }

  /** The order in which the server lists pods cannot turn Running on or off. */
  lemma RunningIgnoresOrder(a: seq<Pod>, b: seq<Pod>)
    requires multiset(a) == multiset(b)
    ensures ComputePhase(a).phase == Running <==> ComputePhase(b).phase == Running
  {
    RunningIff(a);
    RunningIff(b);
    SameElements(a, b);
  }

  /** Putting a pod that is not settled in front makes its verdict the verdict. */
  lemma UnsettledInFront(pods: seq<Pod>, p: Pod) returns (moved: seq<Pod>)
    requires p in pods && !Settled(p)
    ensures multiset(moved) == multiset(pods) && ComputePhase(moved) == ComputePhase([p])
  {
    var i :| 0 <= i < |pods| && pods[i] == p;
    assert pods == pods[..i] + [p] + pods[i + 1..];
    moved := [p] + (pods[..i] + pods[i + 1..]);
    Alone(p);
    assert FirstUnsettled(moved, 0);
    FirstUnsettledDecides(moved, 0);
  }

  /** All pods that are not settled would get the same verdict on their own. */
  predicate Agreeing(pods: seq<Pod>) {
    forall p, q :: p in pods && q in pods && !Settled(p) && !Settled(q) ==> ComputePhase([p]) == ComputePhase([q])
  }

  lemma AgreeingIgnoresOrder(a: seq<Pod>, b: seq<Pod>)
    requires multiset(a) == multiset(b) && Agreeing(a)
    ensures ComputePhase(a) == ComputePhase(b)
  {
    SameElements(a, b);
    if exists p :: p in a && !Settled(p) {
      var i := SomeUnsettled(a);
      var j := SomeUnsettled(b);
      FirstUnsettledDecides(a, i);
      FirstUnsettledDecides(b, j);
      assert a[i] in a && b[j] in a;
      Alone(a[i]);
      Alone(b[j]);
    } else {
      SettledVerdict(a);
      SettledVerdict(b);
    }
  }

  /** Phase and message do not depend on list order exactly when all pods that are not
      settled call for the same verdict. */
  lemma OrderIrrelevantIff(pods: seq<Pod>)
    ensures (forall b :: multiset(b) == multiset(pods) ==> ComputePhase(b) == ComputePhase(pods)) <==> Agreeing(pods)
  {
    if Agreeing(pods) {
      forall b | multiset(b) == multiset(pods) ensures ComputePhase(b) == ComputePhase(pods) {
        AgreeingIgnoresOrder(pods, b);
      }
    }
    if forall b :: multiset(b) == multiset(pods) ==> ComputePhase(b) == ComputePhase(pods) {
      forall p, q | p in pods && q in pods && !Settled(p) && !Settled(q)
        ensures ComputePhase([p]) == ComputePhase([q])
      {
        var a := UnsettledInFront(pods, p);
        var b := UnsettledInFront(pods, q);
      }
    }
  }

  /** An input on which they do depend on it. */
  lemma MessageDependsOnOrder(a: Pod, b: Pod)
    requires a.terminating
    requires !b.terminating && b.status == PodStatus(PodFailed, [], [])
    ensures ComputePhase([a, b]) == Verdict(Pending, Recreating)
    ensures ComputePhase([b, a]) == Verdict(Failed, StartFailed)
    ensures multiset([a, b]) == multiset([b, a])
  {
    assert FirstVerdict([a, b]) == PodVerdict(a);
    assert FirstVerdict([b, a]) == PodVerdict(b);
  }
}
