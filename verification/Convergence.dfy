/** Retrying after cuts converges to the uninterrupted result. */
module Convergence {
  import opened Common
  import opened Names
  import opened Objects
  import opened Actions
  import opened Plans
  import opened StatusSync
  import opened Protocol
  import opened Attempts

  /** A reconcile that starts after some time; its outcomes decide where it is cut. */
  datatype Attempt = Attempt(elapsed: nat, turns: nat -> Turn)

  function Wait(c: Cluster, elapsed: nat): Cluster {
    c.(clock := c.clock + elapsed)
  }

  function Once(cfg: Config, k: string, c: Cluster, turns: nat -> Turn): Cluster {
    Drive(cfg, k, Begin, c, turns, 0).1
  }

  function AfterAttempts(cfg: Config, k: string, c: Cluster, attempts: seq<Attempt>): Cluster {
    if attempts == [] then c
    else
      var last := attempts[|attempts| - 1];
      Once(cfg, k, Wait(AfterAttempts(cfg, k, c, attempts[..|attempts| - 1]), last.elapsed), last.turns)
  }

  /** Every attempt finds the session live and nothing else moving. */
  ghost predicate LiveThroughout(cfg: Config, k: string, c: Cluster, attempts: seq<Attempt>) {
    forall i :: 0 <= i < |attempts| ==>
      Quiet(attempts[i].turns) && Live(Wait(AfterAttempts(cfg, k, c, attempts[..i]), attempts[i].elapsed), k)
  }

  // ------------------------------------------------------------------ confluence

  /** The session without its version and clock values. */
  function CoreOf(s: Session): Session {
    s.(version := 0, status := s.status.(startTime := None, expiredTime := None))
  }

  /** The namespace one uninterrupted run of the plan leaves. */
  function EndOf(cfg: Config, c: Cluster, k: string): Option<Namespace>
    requires Live(c, k)
  {
    Exec(PlanOf(cfg, c, k), WhoAt(c, k), Erase(NamespaceAt(c, k)))
  }

  function EndPods(cfg: Config, c: Cluster, k: string): seq<Pod>
    requires Live(c, k)
  {
    if EndOf(cfg, c, k).Some? then EndOf(cfg, c, k).value.pods else []
  }

  predicate UpToDate(cfg: Config, c: Cluster, k: string, status: Status)
    requires Live(c, k)
  {
    !Synced(cfg, k, c.sessions[k].userId, status, SpaceOf(c, k), ServicesOf(cfg, c, k), EndPods(cfg, c, k), c.clock).1
  }

  /** The status was written once, with the verdict on the final pods. */
  predicate Rewritten(cfg: Config, c: Cluster, k: string, t: Session)
    requires Live(c, k)
  {
    && !UpToDate(cfg, c, k, c.sessions[k].status)
    && CoreOf(t) == CoreOf(WrittenAt(cfg, c, k, EndPods(cfg, c, k)))
    && UpToDate(cfg, c, k, t.status)
  }

  /** A state from which a full run gives what it gives from c. */
  predicate Reached(cfg: Config, c: Cluster, k: string, d: Cluster)
    requires Live(c, k)
  {
    var plan, who := PlanOf(cfg, c, k), WhoAt(c, k);
    && d.spaces == c.spaces && d.services == c.services && d.nextUid == c.nextUid && d.leaked == c.leaked
    && d.sessions - {k} == c.sessions - {k}
    && d.namespaces - {NamespaceOf(k)} == c.namespaces - {NamespaceOf(k)}
    && k in d.sessions
    && Exec(plan, who, Erase(NamespaceAt(d, k))) == EndOf(cfg, c, k)
    && (Admissible(plan, who, Erase(NamespaceAt(d, k))) <==> Admissible(plan, who, Erase(NamespaceAt(c, k))))
    && (d.sessions[k] == c.sessions[k] || Rewritten(cfg, c, k, d.sessions[k]))
  }

  /** The verdict on a completed namespace is the verdict on the final pods, so only the
      stored status decides whether the pass writes. */
  lemma SyncedAtEnd(cfg: Config, c: Cluster, k: string, d: Cluster, pods: seq<Pod>)
    requires Live(c, k) && Live(d, k) && d.spaces == c.spaces && d.services == c.services
    requires d.sessions[k].userId == c.sessions[k].userId && d.sessions[k].spaceRef == c.sessions[k].spaceRef
    requires EraseDraws(pods) == EndPods(cfg, c, k)
    ensures SyncedAt(cfg, d, k, pods).1 <==> !UpToDate(cfg, c, k, d.sessions[k].status)
    ensures d.sessions[k] == c.sessions[k] ==>
      CoreOf(WrittenAt(cfg, d, k, pods)) == CoreOf(WrittenAt(cfg, c, k, EndPods(cfg, c, k)))
    ensures UpToDate(cfg, c, k, WrittenAt(cfg, d, k, pods).status)
  {
    PhaseIgnoresDraws(pods);
  }

  lemma PlanUnchanged(cfg: Config, c: Cluster, k: string, d: Cluster)
    requires Live(c, k) && Live(d, k) && Reached(cfg, c, k, d)
    ensures PlanOf(cfg, d, k) == PlanOf(cfg, c, k) && WhoAt(d, k) == WhoAt(c, k)
    ensures d.sessions[k].userId == c.sessions[k].userId && d.sessions[k].spaceRef == c.sessions[k].spaceRef
  {
    SameCore(cfg, c, k, d.sessions[k]);
  }

  lemma SameCore(cfg: Config, c: Cluster, k: string, t: Session)
    requires Live(c, k) && (t == c.sessions[k] || Rewritten(cfg, c, k, t))
    ensures t.userId == c.sessions[k].userId && t.spaceRef == c.sessions[k].spaceRef && t.uid == c.sessions[k].uid
  {
    if Rewritten(cfg, c, k, t) {
      var w := WrittenAt(cfg, c, k, EndPods(cfg, c, k));
      assert CoreOf(t).userId == CoreOf(w).userId && CoreOf(t).spaceRef == CoreOf(w).spaceRef
        && CoreOf(t).uid == CoreOf(w).uid;
    }
  }

  lemma PlanStarts(cfg: Config, c: Cluster, k: string)
    requires Live(c, k) && DistinctNames(c.services)
    ensures var p := PlanOf(cfg, c, k);
      p != [] && p[0].EnsureNamespace? && AllMatched(p) && NoClash(p)
  {
    var s, space, svcs := c.sessions[k], SpaceOf(c, k), ServicesOf(cfg, c, k);
    SelectedDistinct(cfg, space.selector, c.services);
    PlanMatched(cfg, k, s.userId, space, svcs);
    PlanNoClash(cfg, k, s.userId, space, svcs);
    assert PlanOf(cfg, c, k)[0] == SetupPlan(cfg, space)[0];
  }

  lemma EndIsSome(cfg: Config, c: Cluster, k: string)
    requires Live(c, k) && DistinctNames(c.services)
    ensures EndOf(cfg, c, k).Some?
  {
    PlanStarts(cfg, c, k);
    var p, who := PlanOf(cfg, c, k), WhoAt(c, k);
    var n := Apply(p[0], who, 0, Erase(NamespaceAt(c, k))).value;
    ExecParts(p[1..], who, n);
  }

  /** Whatever prefix of the plan an attempt got through, the plan still leads to the same end. */
  lemma PrefixReaches(plan: seq<Action>, done: nat, who: Birth, ns: Option<Namespace>, end: Option<Namespace>)
    requires plan != [] && plan[0].EnsureNamespace? && AllMatched(plan) && NoClash(plan) && done <= |plan|
    requires Exec(plan, who, ns) == end && Admissible(plan[..done], who, ns)
    ensures Exec(plan, who, Exec(plan[..done], who, ns)) == end
    ensures Admissible(plan, who, Exec(plan[..done], who, ns)) <==> Admissible(plan, who, ns)
  {
    PlanAbsorbsPrefix(plan, done, who, ns);
    AdmissibleAfterPrefix(plan, done, who, ns);
  }

  /** A status write from a state on the way gives what the write from c gives. */
  lemma WriteReaches(cfg: Config, c: Cluster, k: string, d: Cluster, pods: seq<Pod>)
    requires Live(c, k) && Live(d, k) && Reached(cfg, c, k, d)
    requires EraseDraws(pods) == EndPods(cfg, c, k) && SyncedAt(cfg, d, k, pods).1
    ensures Rewritten(cfg, c, k, WrittenAt(cfg, d, k, pods))
  {
    PlanUnchanged(cfg, c, k, d);
    SyncedAtEnd(cfg, c, k, d, pods);
  }

  lemma PodsAtEnd(plan: seq<Action>, done: nat, who: Birth, ns: Option<Namespace>, after: Option<Namespace>,
                  end: Option<Namespace>)
    requires done == |plan| && Erase(after) == Exec(plan[..done], who, ns) && Exec(plan, who, ns) == end && end.Some?
    ensures after.Some? && EraseDraws(after.value.pods) == end.value.pods
  {
    assert plan[..done] == plan;
  }

  /** One more attempt, however it ends, keeps the same end in reach. */
  lemma AttemptReaches(cfg: Config, c: Cluster, k: string, d: Cluster, turns: nat -> Turn)
    requires Live(c, k) && DistinctNames(c.services) && Quiet(turns)
    requires Live(d, k) && Reached(cfg, c, k, d)
    ensures Reached(cfg, c, k, Once(cfg, k, d, turns))
  {
    var done := LiveAttempt(cfg, k, d, turns);
    var (l, e, _) := Drive(cfg, k, Begin, d, turns, 0);
    StillReached(cfg, c, k, d, l, e, done);
  }

  lemma StillReached(cfg: Config, c: Cluster, k: string, d: Cluster, l: Local, e: Cluster, done: nat)
    requires Live(c, k) && DistinctNames(c.services) && Live(d, k) && Reached(cfg, c, k, d)
    requires Leaves(cfg, d, k, l, e, done)
    ensures Reached(cfg, c, k, e)
  {
    PlanUnchanged(cfg, c, k, d);
    PlanStarts(cfg, c, k);
    PrefixReaches(PlanOf(cfg, c, k), done, WhoAt(c, k), Erase(NamespaceAt(d, k)), EndOf(cfg, c, k));
    SessionReached(cfg, c, k, d, l, e, done);
  }

  lemma SessionReached(cfg: Config, c: Cluster, k: string, d: Cluster, l: Local, e: Cluster, done: nat)
    requires Live(c, k) && DistinctNames(c.services) && Live(d, k) && Reached(cfg, c, k, d)
    requires Leaves(cfg, d, k, l, e, done)
    ensures k in e.sessions && e.sessions - {k} == d.sessions - {k}
    ensures e.sessions[k] == d.sessions[k] || Rewritten(cfg, c, k, e.sessions[k])
  {
    if e.sessions != d.sessions {
      PlanUnchanged(cfg, c, k, d);
      EndIsSome(cfg, c, k);
      PodsAtEnd(PlanOf(cfg, c, k), done, WhoAt(c, k), Erase(NamespaceAt(d, k)), NamespaceAt(e, k), EndOf(cfg, c, k));
      WriteReaches(cfg, c, k, d, PodsAt(e, k));
    }
  }

  predicate Succeeded(l: Local) {
    l.Idle? && l.result.After?
  }

  /** What a successful run leaves, compared with the run from c. */
  predicate SameOutcome(a: Cluster, b: Cluster, k: string) {
    && Erase(NamespaceAt(a, k)) == Erase(NamespaceAt(b, k))
    && k in a.sessions && k in b.sessions && CoreOf(a.sessions[k]) == CoreOf(b.sessions[k])
    && a.sessions - {k} == b.sessions - {k}
    && a.namespaces - {NamespaceOf(k)} == b.namespaces - {NamespaceOf(k)}
    && a.spaces == b.spaces && a.services == b.services && a.nextUid == b.nextUid && a.leaked == b.leaked
  }

  /** A run from any state reached on the way that succeeds leaves the namespace and session
      the run from c would have left; if no call fails by itself it succeeds exactly when
      the plan goes through from c. */
  lemma FullRunFrom(cfg: Config, c: Cluster, k: string, d: Cluster, turns: nat -> Turn)
    requires Live(c, k) && DistinctNames(c.services) && Quiet(turns)
    requires Live(d, k) && Reached(cfg, c, k, d)
    ensures var (l, e, _) := Drive(cfg, k, Begin, d, turns, 0);
      var goesThrough := Admissible(PlanOf(cfg, c, k), WhoAt(c, k), Erase(NamespaceAt(c, k)));
      && (AllDone(turns) && goesThrough ==> Succeeded(l))
      && (Succeeded(l) ==>
            && goesThrough
            && Erase(NamespaceAt(e, k)) == EndOf(cfg, c, k)
            && k in e.sessions
            && CoreOf(e.sessions[k]) == (if UpToDate(cfg, c, k, c.sessions[k].status) then CoreOf(c.sessions[k])
                                         else CoreOf(WrittenAt(cfg, c, k, EndPods(cfg, c, k))))
            && Reached(cfg, c, k, e))
  {
    var done := LiveAttempt(cfg, k, d, turns);
    var (l, e, _) := Drive(cfg, k, Begin, d, turns, 0);
    PlanUnchanged(cfg, c, k, d);
    if Succeeded(l) {
      var plan := PlanOf(cfg, c, k);
      assert plan[..|plan|] == plan;
      EndIsSome(cfg, c, k);
      SyncedAtEnd(cfg, c, k, d, PodsAt(e, k));
      StillReached(cfg, c, k, d, l, e, done);
    }
  }

  lemma WaitReaches(cfg: Config, c: Cluster, k: string, d: Cluster, elapsed: nat)
    requires Live(c, k) && Reached(cfg, c, k, d)
    ensures Reached(cfg, c, k, Wait(d, elapsed))
  {
    assert NamespaceAt(Wait(d, elapsed), k) == NamespaceAt(d, k);
  }

  lemma FrontPrefix(attempts: seq<Attempt>, i: nat)
    requires attempts != [] && i <= |attempts| - 1
    ensures attempts[..|attempts| - 1][..i] == attempts[..i]
  {
  }

  lemma LiveFront(cfg: Config, k: string, c: Cluster, attempts: seq<Attempt>)
    requires attempts != [] && LiveThroughout(cfg, k, c, attempts)
    ensures var front, last := attempts[..|attempts| - 1], attempts[|attempts| - 1];
      && LiveThroughout(cfg, k, c, front)
      && Quiet(last.turns) && Live(Wait(AfterAttempts(cfg, k, c, front), last.elapsed), k)
  {
    var front := attempts[..|attempts| - 1];
    forall i | 0 <= i < |front|
      ensures Quiet(front[i].turns) && Live(Wait(AfterAttempts(cfg, k, c, front[..i]), front[i].elapsed), k)
    {
      FrontPrefix(attempts, i);
      assert front[i] == attempts[i];
    }
  }

  lemma {:induction false} AttemptsReach(cfg: Config, k: string, c: Cluster, attempts: seq<Attempt>)
    requires Live(c, k) && DistinctNames(c.services) && LiveThroughout(cfg, k, c, attempts)
    ensures Reached(cfg, c, k, AfterAttempts(cfg, k, c, attempts))
    decreases |attempts|
  {
    if attempts != [] {
      var front, last := attempts[..|attempts| - 1], attempts[|attempts| - 1];
      LiveFront(cfg, k, c, attempts);
      AttemptsReach(cfg, k, c, front);
      WaitReaches(cfg, c, k, AfterAttempts(cfg, k, c, front), last.elapsed);
      AttemptReaches(cfg, c, k, Wait(AfterAttempts(cfg, k, c, front), last.elapsed), last.turns);
    }
  }

  /** Crash-retry confluence. Take any live session and any number of attempts, each cut at
      any call by a refused call or a lost reply, with time passing in between while the
      session stays live. If a run after all the cut ones succeeds, then so does one
      uninterrupted run from the start, and the two leave the same store up to clock values,
      versions and random draws. If no call fails by itself, it succeeds whenever the
      uninterrupted run does. */
  lemma CrashRetryConfluence(cfg: Config, k: string, c: Cluster, attempts: seq<Attempt>, elapsed: nat,
                             first: nat -> Turn, last: nat -> Turn)
    requires Live(c, k) && DistinctNames(c.services) && LiveThroughout(cfg, k, c, attempts)
    requires Live(Wait(AfterAttempts(cfg, k, c, attempts), elapsed), k)
    requires AllDone(first) && Quiet(last)
    ensures var whole := Drive(cfg, k, Begin, c, first, 0);
      var cut := Drive(cfg, k, Begin, Wait(AfterAttempts(cfg, k, c, attempts), elapsed), last, 0);
      && (Succeeded(cut.0) ==> Succeeded(whole.0) && SameOutcome(cut.1, whole.1, k))
      && (AllDone(last) && Succeeded(whole.0) ==> Succeeded(cut.0))
  {
    AttemptsReach(cfg, k, c, attempts);
    WaitReaches(cfg, c, k, AfterAttempts(cfg, k, c, attempts), elapsed);
    assert Reached(cfg, c, k, c);
    FullRunFrom(cfg, c, k, c, first);
    FullRunFrom(cfg, c, k, Wait(AfterAttempts(cfg, k, c, attempts), elapsed), last);
  }

  /** The namespace as the first call of a plan leaves it. */
  function StartOf(c: Cluster, k: string): Namespace
    requires Live(c, k)
  {
    if NamespaceAt(c, k).Some? then Erase(NamespaceAt(c, k)).value else Namespace(false, c.sessions[k].uid, [], map[])
  }

  lemma AdmissibleFromStart(plan: seq<Action>, who: Birth, ns: Option<Namespace>)
    requires plan != [] && plan[0].EnsureNamespace? && NoClash(plan)
    ensures Admissible(plan, who, ns) <==> Clear(plan, Apply(EnsureNamespace, who, 0, ns).value)
  {
    var n := Apply(EnsureNamespace, who, 0, ns).value;
    assert Admissible(plan, who, ns) <==> Admissible(plan, who, Some(n));
    AdmissibleIffClear(plan, who, n);
  }

  /** When no call fails by itself, a run succeeds exactly when no task selector or port is
      missing, no object it controls belongs to an owner of another kind or name, and nothing
      has to be created in a terminating namespace: all visible before the run. */
  lemma SucceedsIff(cfg: Config, k: string, c: Cluster, turns: nat -> Turn)
    requires Live(c, k) && DistinctNames(c.services) && AllDone(turns)
    ensures Succeeded(Drive(cfg, k, Begin, c, turns, 0).0) <==> Clear(PlanOf(cfg, c, k), StartOf(c, k))
  {
    var done := LiveAttempt(cfg, k, c, turns);
    PlanStarts(cfg, c, k);
    AdmissibleFromStart(PlanOf(cfg, c, k), WhoAt(c, k), Erase(NamespaceAt(c, k)));
  }
}
