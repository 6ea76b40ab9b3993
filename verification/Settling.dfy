/** With specs, reported statuses and time frozen, reconciling stops writing the session. */
module Settling {
  import opened Objects
  import opened Actions
  import opened Protocol
  import opened Attempts
  import opened Convergence

  /** How many more writes of session k the controller can still cause by itself:
      finalizer missing, restart pending, status out of date, expired, being deleted. */
  function Rank(cfg: Config, c: Cluster, k: string): (r: nat)
    ensures r <= 5
  {
    if k !in c.sessions then 0
    else
      var s := c.sessions[k];
      if s.deleting then 1
      else if !s.finalizer then 5
      else if Expired(s, c.clock) then 2
      else if RestartPending(s) then 4
      else if s.spaceRef in c.spaces && !UpToDate(cfg, c, k, s.status) then 3
      else 0
  }

  /** The store seen from k, apart from its session and namespace. */
  predicate SameRest(c: Cluster, d: Cluster, k: string) {
    && d.clock == c.clock && d.spaces == c.spaces && d.services == c.services
    && d.sessions - {k} == c.sessions - {k}
  }

  // ----------------------------------------------------- the short ways through a reconcile

  lemma DriveRelease(cfg: Config, k: string, failed: bool, c: Cluster, turns: nat -> Turn, i: nat)
    requires Quiet(turns) && k in c.sessions && c.sessions[k].deleting
    ensures var d := Drive(cfg, k, DropFinalizer(c.sessions[k], failed), c, turns, i).1;
      SameRest(c, d, k) && (d.sessions == c.sessions || k !in d.sessions)
  {
    var l0 := DropFinalizer(c.sessions[k], failed);
    var (l1, c1) := Step(cfg, k, l0, c, turns(i).outcome);
    DriveStep(cfg, k, l0, c, turns, i);
    DriveStep(cfg, k, l1, c1, turns, i + 1);
  }

  lemma DriveCleanup(cfg: Config, k: string, c: Cluster, turns: nat -> Turn, i: nat)
    requires Quiet(turns) && k in c.sessions && c.sessions[k].deleting
    ensures var d := Drive(cfg, k, Cleanup(c.sessions[k]), c, turns, i).1;
      SameRest(c, d, k) && (d.sessions == c.sessions || k !in d.sessions)
  {
    var (l1, c1) := Step(cfg, k, Cleanup(c.sessions[k]), c, turns(i).outcome);
    DriveStep(cfg, k, Cleanup(c.sessions[k]), c, turns, i);
    assert c1.sessions == c.sessions;
    DriveRelease(cfg, k, l1.deleteFailed, c1, turns, i + 1);
  }

  lemma DeletingAttempt(cfg: Config, k: string, c: Cluster, turns: nat -> Turn)
    requires Quiet(turns) && k in c.sessions && c.sessions[k].deleting
    ensures var d := Once(cfg, k, c, turns);
      SameRest(c, d, k) && (d.sessions == c.sessions || k !in d.sessions)
  {
    var l1 := Step(cfg, k, Begin, c, turns(0).outcome).0;
    DriveStep(cfg, k, Begin, c, turns, 0);
    if l1.Cleanup? {
      DriveCleanup(cfg, k, c, turns, 1);
    } else {
      DriveStep(cfg, k, l1, c, turns, 1);
    }
  }

  lemma UnfinalizedAttempt(cfg: Config, k: string, c: Cluster, turns: nat -> Turn)
    requires Quiet(turns) && k in c.sessions && !c.sessions[k].deleting && !c.sessions[k].finalizer
    ensures var d := Once(cfg, k, c, turns);
      SameRest(c, d, k) && k in d.sessions
        && (d.sessions == c.sessions || (d.sessions[k].finalizer && !d.sessions[k].deleting))
  {
    var s := c.sessions[k];
    DriveStep(cfg, k, Begin, c, turns, 0);
    if !turns(0).outcome.Done? {
      DriveStep(cfg, k, Idle(Error), c, turns, 1);
    } else {
      var (l1, c1) := Step(cfg, k, PutFinalizer(s), c, turns(1).outcome);
      DriveStep(cfg, k, PutFinalizer(s), c, turns, 1);
      DriveStep(cfg, k, l1, c1, turns, 2);
    }
  }

  /** Without the session, or without its space, an attempt writes nothing. */
  lemma IdleAttempt(cfg: Config, k: string, c: Cluster, turns: nat -> Turn)
    requires Quiet(turns)
    requires k in c.sessions ==>
      c.sessions[k].finalizer && !c.sessions[k].deleting && c.sessions[k].spaceRef !in c.spaces
    ensures Once(cfg, k, c, turns) == c
  {
    DriveStep(cfg, k, Begin, c, turns, 0);
    var l1 := Step(cfg, k, Begin, c, turns(0).outcome).0;
    DriveStep(cfg, k, l1, c, turns, 1);
    if l1.FetchSpace? {
      DriveStep(cfg, k, Idle(Error), c, turns, 2);
    }
  }

  lemma ExpiredAttempt(cfg: Config, k: string, c: Cluster, turns: nat -> Turn)
    requires Quiet(turns) && k in c.sessions && c.sessions[k].finalizer && !c.sessions[k].deleting
    requires Expired(c.sessions[k], c.clock)
    ensures var d := Once(cfg, k, c, turns);
      SameRest(c, d, k) && (d.sessions == c.sessions || (k in d.sessions && d.sessions[k].deleting))
    ensures AllDone(turns) && c.sessions[k].spaceRef in c.spaces ==>
      k in Once(cfg, k, c, turns).sessions && Once(cfg, k, c, turns).sessions[k].deleting
  {
    var s := c.sessions[k];
    DriveStep(cfg, k, Begin, c, turns, 0);
    var l1 := Step(cfg, k, Begin, c, turns(0).outcome).0;
    DriveStep(cfg, k, l1, c, turns, 1);
    if l1.FetchSpace? {
      var l2 := Step(cfg, k, l1, c, turns(1).outcome).0;
      DriveStep(cfg, k, l2, c, turns, 2);
      if l2.Expire? {
        var (l3, c3) := Step(cfg, k, l2, c, turns(2).outcome);
        DriveStep(cfg, k, l3, c3, turns, 3);
      }
    }
  }

  // ------------------------------------------------------------------ a restart

  lemma {:induction false} DriveDeletes(cfg: Config, k: string, s: Session, pods: seq<string>, failed: set<string>,
                                        c: Cluster, turns: nat -> Turn, i: nat)
    returns (d: Cluster, failed': set<string>, j: nat)
    requires Quiet(turns)
    ensures SameRest(c, d, k) && d.sessions == c.sessions
    ensures Drive(cfg, k, Deleting(s, pods, failed), c, turns, i) == Drive(cfg, k, MarkHandled(s, failed'), d, turns, j)
    decreases |pods|
  {
    if pods == [] {
      return c, failed, i;
    }
    var (c1, ok) := DeletePod(c, k, pods[0], turns(i).outcome);
    var next := if ok then failed else failed + {pods[0]};
    DriveStep(cfg, k, DeletePods(s, pods, failed), c, turns, i);
    d, failed', j := DriveDeletes(cfg, k, s, pods[1..], next, c1, turns, i + 1);
  }

  /** What a handled restart leaves of the session: nothing pending any more. */
  predicate Handled(c: Cluster, d: Cluster, k: string) {
    k in d.sessions && d.sessions[k].finalizer && !d.sessions[k].deleting && !RestartPending(d.sessions[k])
    && SameRest(c, d, k)
  }

  /** The best-effort status write after a restart. */
  lemma DriveReport(cfg: Config, k: string, s: Session, c: Cluster, turns: nat -> Turn, i: nat)
    requires Quiet(turns)
    ensures var (l, d, _) := Drive(cfg, k, RestartStatus(s), c, turns, i);
      d == UpdateStatus(c, k, s.(status := RestartingStatus(s.status)), turns(i).outcome).0
        && l == Idle(After(2 * SECOND))
  {
    var (l1, c1) := Step(cfg, k, RestartStatus(s), c, turns(i).outcome);
    DriveStep(cfg, k, RestartStatus(s), c, turns, i);
    DriveStep(cfg, k, l1, c1, turns, i + 1);
  }

  lemma DriveHandled(cfg: Config, k: string, failed: set<string>, c: Cluster, turns: nat -> Turn, i: nat)
    requires Quiet(turns) && k in c.sessions && c.sessions[k].finalizer && !c.sessions[k].deleting
    requires RestartPending(c.sessions[k])
    ensures var (l, d, _) := Drive(cfg, k, MarkHandled(c.sessions[k], failed), c, turns, i);
      && (d == c || Handled(c, d, k))
      && (AllDone(turns) ==> l == Idle(After(2 * SECOND)))
  {
    var l0 := MarkHandled(c.sessions[k], failed);
    var (l1, c1) := Step(cfg, k, l0, c, turns(i).outcome);
    DriveStep(cfg, k, l0, c, turns, i);
    MarkLeaves(cfg, k, failed, c, turns(i).outcome);
    if l1.RestartStatus? {
      DriveReport(cfg, k, l1.s, c1, turns, i + 1);
      ReportLeaves(c, c1, k, l1.s.(status := RestartingStatus(l1.s.status)), turns(i + 1).outcome);
    } else {
      DriveStep(cfg, k, l1, c1, turns, i + 1);
    }
  }

  lemma MarkLeaves(cfg: Config, k: string, failed: set<string>, c: Cluster, o: Outcome)
    requires k in c.sessions && c.sessions[k].finalizer && !c.sessions[k].deleting && RestartPending(c.sessions[k])
    ensures var (l1, c1) := Step(cfg, k, MarkHandled(c.sessions[k], failed), c, o);
      && (c1 == c || Handled(c, c1, k))
      && (l1 == Idle(Error) || (l1.RestartStatus? && Handled(c, c1, k)))
      && (o.Done? ==> l1.RestartStatus?)
  {
    var c1 := Step(cfg, k, MarkHandled(c.sessions[k], failed), c, o).1;
    assert c1.sessions - {k} == c.sessions - {k};
  }

  lemma ReportLeaves(c: Cluster, c1: Cluster, k: string, s: Session, o: Outcome)
    requires Handled(c, c1, k)
    ensures Handled(c, UpdateStatus(c1, k, s, o).0, k)
  {
    var d := UpdateStatus(c1, k, s, o).0;
    assert d.sessions - {k} == c1.sessions - {k};
  }

  lemma DriveRestart(cfg: Config, k: string, c: Cluster, turns: nat -> Turn, i: nat)
    requires Quiet(turns) && k in c.sessions && c.sessions[k].finalizer && !c.sessions[k].deleting
    requires RestartPending(c.sessions[k])
    ensures var (l, d, _) := Drive(cfg, k, ListForRestart(c.sessions[k]), c, turns, i);
      && SameRest(c, d, k) && (d.sessions == c.sessions || Handled(c, d, k))
      && (AllDone(turns) ==> l == Idle(After(2 * SECOND)))
  {
    var s := c.sessions[k];
    DriveStep(cfg, k, ListForRestart(s), c, turns, i);
    if turns(i).outcome.Done? {
      var d, failed, j := DriveDeletes(cfg, k, s, LiveNames(PodsAt(c, k)), {}, c, turns, i + 1);
      DriveHandled(cfg, k, failed, d, turns, j);
    } else {
      DriveStep(cfg, k, Idle(Error), c, turns, i + 1);
    }
  }

  lemma PendingAttempt(cfg: Config, k: string, c: Cluster, turns: nat -> Turn)
    requires Quiet(turns) && k in c.sessions && c.sessions[k].finalizer && !c.sessions[k].deleting
    requires !Expired(c.sessions[k], c.clock) && RestartPending(c.sessions[k]) && c.sessions[k].spaceRef in c.spaces
    ensures var (l, d, _) := Drive(cfg, k, Begin, c, turns, 0);
      && SameRest(c, d, k) && (d.sessions == c.sessions || Handled(c, d, k))
      && (AllDone(turns) ==> l == Idle(Error) || l == Idle(After(2 * SECOND)))
  {
    var s := c.sessions[k];
    var space := c.spaces[s.spaceRef];
    DriveStep(cfg, k, Begin, c, turns, 0);
    if !turns(0).outcome.Done? {
      DriveStep(cfg, k, Idle(Error), c, turns, 1);
      return;
    }
    DriveStep(cfg, k, FetchSpace(s), c, turns, 1);
    if !turns(1).outcome.Done? {
      DriveStep(cfg, k, Idle(Error), c, turns, 2);
      return;
    }
    var p, stopped := DriveSetup(cfg, k, s, space, SetupPlan(cfg, space), c, turns, 2);
    if !stopped {
      DriveRestart(cfg, k, p.cluster, turns, p.turn);
    }
  }

  // ------------------------------------------------------------------- the measure

  lemma LeavesSameRest(cfg: Config, k: string, c: Cluster, l: Local, d: Cluster, done: nat)
    requires Live(c, k) && Leaves(cfg, c, k, l, d, done)
    ensures SameRest(c, d, k)
  {
    if d.sessions != c.sessions {
      assert d.sessions - {k} == c.sessions - {k};
    }
  }

  lemma SamePlan(cfg: Config, k: string, c: Cluster, l: Local, d: Cluster, done: nat)
    requires Live(c, k) && Live(d, k) && DistinctNames(c.services) && Leaves(cfg, c, k, l, d, done)
    ensures EndPods(cfg, d, k) == EndPods(cfg, c, k)
  {
    PlanStarts(cfg, c, k);
    PlanAbsorbsPrefix(PlanOf(cfg, c, k), done, WhoAt(c, k), Erase(NamespaceAt(c, k)));
  }

  lemma WrittenIsSettled(cfg: Config, k: string, c: Cluster, l: Local, d: Cluster, done: nat)
    requires Live(c, k) && DistinctNames(c.services) && Leaves(cfg, c, k, l, d, done) && d.sessions != c.sessions
    ensures k in d.sessions
      && d.sessions[k] == c.sessions[k].(status := d.sessions[k].status, version := c.sessions[k].version + 1)
    ensures UpToDate(cfg, c, k, d.sessions[k].status) && !UpToDate(cfg, c, k, c.sessions[k].status)
  {
    var plan, who, ns := PlanOf(cfg, c, k), WhoAt(c, k), Erase(NamespaceAt(c, k));
    EndIsSome(cfg, c, k);
    PodsAtEnd(plan, done, who, ns, NamespaceAt(d, k), EndOf(cfg, c, k));
    SyncedAtEnd(cfg, c, k, c, PodsAt(d, k));
    assert d.sessions[k] == WrittenAt(cfg, c, k, PodsAt(d, k));
  }

  lemma LiveRank(cfg: Config, k: string, c: Cluster, l: Local, d: Cluster, done: nat)
    requires DistinctNames(c.services) && Live(c, k) && Leaves(cfg, c, k, l, d, done)
    ensures if d.sessions == c.sessions then Rank(cfg, d, k) == Rank(cfg, c, k) else Rank(cfg, d, k) < Rank(cfg, c, k)
  {
    if d.sessions == c.sessions {
      SamePlan(cfg, k, c, l, d, done);
    } else {
      WrittenIsSettled(cfg, k, c, l, d, done);
      if !Expired(d.sessions[k], d.clock) {
        SamePlan(cfg, k, c, l, d, done);
      }
    }
  }

  /** Every reconcile, with any outcomes of its calls, either leaves the session alone and
      the measure as it is, or writes the session and lowers the measure. */
  lemma AttemptLowersRank(cfg: Config, k: string, c: Cluster, turns: nat -> Turn)
    requires Quiet(turns) && DistinctNames(c.services)
    ensures var d := Once(cfg, k, c, turns);
      && SameRest(c, d, k)
      && (if d.sessions == c.sessions then Rank(cfg, d, k) == Rank(cfg, c, k) else Rank(cfg, d, k) < Rank(cfg, c, k))
  {
    if k !in c.sessions {
      IdleAttempt(cfg, k, c, turns);
    } else {
      var s := c.sessions[k];
      if s.deleting {
        DeletingAttempt(cfg, k, c, turns);
      } else if !s.finalizer {
        UnfinalizedAttempt(cfg, k, c, turns);
      } else if s.spaceRef !in c.spaces {
        IdleAttempt(cfg, k, c, turns);
      } else if Expired(s, c.clock) {
        ExpiredAttempt(cfg, k, c, turns);
      } else if RestartPending(s) {
        PendingAttempt(cfg, k, c, turns);
      } else {
        var done := LiveAttempt(cfg, k, c, turns);
        var (l, d, _) := Drive(cfg, k, Begin, c, turns, 0);
        LeavesSameRest(cfg, k, c, l, d, done);
        LiveRank(cfg, k, c, l, d, done);
      }
    }
  }

  function Repeated(cfg: Config, k: string, c: Cluster, runs: seq<nat -> Turn>): Cluster {
    if runs == [] then c else Once(cfg, k, Repeated(cfg, k, c, runs[..|runs| - 1]), runs[|runs| - 1])
  }

  /** How many of the reconciles wrote the session. */
  function SessionWrites(cfg: Config, k: string, c: Cluster, runs: seq<nat -> Turn>): nat {
    if runs == [] then 0
    else
      var before := Repeated(cfg, k, c, runs[..|runs| - 1]);
      SessionWrites(cfg, k, c, runs[..|runs| - 1])
      + (if Once(cfg, k, before, runs[|runs| - 1]).sessions == before.sessions then 0 else 1)
  }

  /** From any state at all, however many reconciles run and whatever their calls return,
      at most five of them write the session; once the measure is used up, none does. */
  lemma {:induction false} SelfTriggeringEnds(cfg: Config, k: string, c: Cluster, runs: seq<nat -> Turn>)
    requires DistinctNames(c.services) && forall r :: r in runs ==> Quiet(r)
    ensures SessionWrites(cfg, k, c, runs) + Rank(cfg, Repeated(cfg, k, c, runs), k) <= Rank(cfg, c, k) <= 5
    ensures SameRest(c, Repeated(cfg, k, c, runs), k)
    decreases |runs|
  {
    if runs != [] {
      var front, last := runs[..|runs| - 1], runs[|runs| - 1];
      SelfTriggeringEnds(cfg, k, c, front);
      assert last in runs;
      AttemptLowersRank(cfg, k, Repeated(cfg, k, c, front), last);
    }
  }
}
