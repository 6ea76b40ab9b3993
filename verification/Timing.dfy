/** How late an expired session is deleted when nothing fails and requeues are honoured. */
module Timing {
  import opened Common
  import opened Objects
  import opened StatusSync
  import opened Protocol
  import opened Invariants
  import opened Preservation
  import opened Guarantees
  import opened Attempts
  import opened Convergence
  import opened Settling

  // -------------------------------------------------------------------- timed runs

  /** Between two reconciles the environment moves, clock included; the reconcile itself
      takes no time. */
  datatype Wake = Wake(env: seq<EnvStep>, turns: nat -> Turn)

  /** The latest time of the next reconcile: the requested delay, or at once when the
      controller's own write triggers it. */
  function Deadline(l: Local, c: Cluster): int {
    c.clock + (if l.Idle? && l.result.After? then l.result.delay else 0)
  }

  /** No call fails, no reconcile reports an error, and every requeue is honoured. */
  ghost predicate Honoured(cfg: Config, k: string, c: Cluster, deadline: int, wakes: seq<Wake>)
    decreases |wakes|
  {
    wakes != [] ==>
      var c1 := EnvRun(c, wakes[0].env);
      var (l, d, _) := Drive(cfg, k, Begin, c1, wakes[0].turns, 0);
      && c1.clock <= deadline
      && AllDone(wakes[0].turns) && l != Idle(Error)
      && Honoured(cfg, k, d, Deadline(l, d), wakes[1..])
  }

  /** Incarnation u of session k is no longer there or already marked deleted. */
  predicate Going(c: Cluster, k: string, u: Uid) {
    k !in c.sessions || c.sessions[k].uid != u || c.sessions[k].deleting
  }

  /** Until incarnation u is going, every reconcile happens by the limit, and the first one
      after expiry deletes it. */
  predicate DeletedInTime(cfg: Config, k: string, c: Cluster, wakes: seq<Wake>, u: Uid, expiry: int, limit: int)
    decreases |wakes|
  {
    wakes != [] ==>
      var c1 := EnvRun(c, wakes[0].env);
      var d := Once(cfg, k, c1, wakes[0].turns);
      Going(c1, k, u)
      || (c1.clock <= limit
          && (c1.clock > expiry ==> Going(d, k, u))
          && DeletedInTime(cfg, k, d, wakes[1..], u, expiry, limit))
  }

  lemma {:induction false} GoingStays(c: Cluster, k: string, u: Uid, steps: seq<EnvStep>)
    requires Going(c, k, u) && u < c.nextUid
    ensures Going(EnvRun(c, steps), k, u)
    decreases |steps|
  {
    if steps != [] {
      GoingStays(EnvApply(c, steps[0]), k, u, steps[1..]);
    }
  }

  /** Incarnation u with its expiry fixed. */
  predicate Ticking(c: Cluster, k: string, u: Uid, expiry: int) {
    k in c.sessions && c.sessions[k].uid == u && !c.sessions[k].deleting
    && TimersSet(c.sessions[k].status) && c.sessions[k].status.expiredTime == Some(expiry)
  }

  lemma {:induction false} NextUidGrows(c: Cluster, steps: seq<EnvStep>)
    ensures c.nextUid <= EnvRun(c, steps).nextUid
    decreases |steps|
  {
    if steps != [] {
      NextUidGrows(EnvApply(c, steps[0]), steps[1..]);
    }
  }

  lemma {:induction false} TickingStays(c: Cluster, k: string, u: Uid, expiry: int, steps: seq<EnvStep>)
    requires Ticking(c, k, u, expiry) && u < c.nextUid
    ensures Ticking(EnvRun(c, steps), k, u, expiry) || Going(EnvRun(c, steps), k, u)
    ensures c.nextUid <= EnvRun(c, steps).nextUid
    decreases |steps|
  {
    if steps != [] {
      var c1 := EnvApply(c, steps[0]);
      if Going(c1, k, u) {
        GoingStays(c1, k, u, steps[1..]);
        NextUidGrows(c1, steps[1..]);
      } else {
        TickingStays(c1, k, u, expiry, steps[1..]);
      }
    }
  }

  lemma UpdateKeepsGoing(cfg: Config, k: string, l: Local, c: Cluster, o: Outcome)
    requires l.DropFinalizer? || l.PutFinalizer? || l.MarkHandled?
    ensures var c' := Step(cfg, k, l, c, o).1;
      k in c'.sessions ==> k in c.sessions && c'.sessions[k].uid == c.sessions[k].uid
                           && (c.sessions[k].deleting ==> c'.sessions[k].deleting)
  {
  }

  lemma WriteKeepsGoing(cfg: Config, k: string, l: Local, c: Cluster, o: Outcome)
    requires WritesSession(l)
    ensures var c' := Step(cfg, k, l, c, o).1;
      && c'.nextUid == c.nextUid && c'.clock == c.clock
      && (k in c'.sessions ==> k in c.sessions && c'.sessions[k].uid == c.sessions[k].uid
                               && (c.sessions[k].deleting ==> c'.sessions[k].deleting))
  {
    WritesConfined(cfg, k, l, c, o);
    if l.DropFinalizer? || l.PutFinalizer? || l.MarkHandled? {
      UpdateKeepsGoing(cfg, k, l, c, o);
    }
  }

  lemma StepKeepsTicking(cfg: Config, k: string, l: Local, c: Cluster, o: Outcome, u: Uid, expiry: int)
    requires Ok(c, k, l) && (Ticking(c, k, u, expiry) || Going(c, k, u))
    ensures var c' := Step(cfg, k, l, c, o).1;
      (Ticking(c', k, u, expiry) || Going(c', k, u)) && c'.nextUid == c.nextUid && c'.clock == c.clock
  {
    if WritesSession(l) {
      WriteKeepsGoing(cfg, k, l, c, o);
      if Ticking(c, k, u, expiry) {
        StepKeepsTimers(cfg, k, l, c, o);
      }
    } else {
      OthersKeepSessions(cfg, k, l, c, o);
    }
  }

  /** A whole reconcile leaves the expiry alone, unless somebody deletes the incarnation. */
  lemma {:induction false} DriveKeepsTicking(cfg: Config, k: string, l: Local, c: Cluster, turns: nat -> Turn, i: nat,
                                             u: Uid, expiry: int)
    requires Ok(c, k, l) && (Ticking(c, k, u, expiry) || Going(c, k, u)) && u < c.nextUid
    ensures var d := Drive(cfg, k, l, c, turns, i).1;
      && (Ticking(d, k, u, expiry) || Going(d, k, u))
      && u < d.nextUid
      && (Quiet(turns) ==> d.clock == c.clock)
    decreases Stage(l), Remaining(l)
  {
    if !l.Idle? {
      var c1 := EnvRun(c, turns(i).env);
      if Going(c, k, u) {
        GoingStays(c, k, u, turns(i).env);
        NextUidGrows(c, turns(i).env);
      } else {
        TickingStays(c, k, u, expiry, turns(i).env);
      }
      EnvRunOk(c, k, l, turns(i).env);
      StepOk(cfg, k, l, c1, turns(i).outcome);
      StepKeepsTicking(cfg, k, l, c1, turns(i).outcome, u, expiry);
      StepProgress(cfg, k, l, c1, turns(i).outcome);
      var (l', c') := Step(cfg, k, l, c1, turns(i).outcome);
      DriveKeepsTicking(cfg, k, l', c', turns, i + 1, u, expiry);
    }
  }

  lemma MissingSpaceFails(cfg: Config, k: string, c: Cluster, turns: nat -> Turn)
    requires AllDone(turns) && k in c.sessions && c.sessions[k].finalizer && !c.sessions[k].deleting
    requires c.sessions[k].spaceRef !in c.spaces
    ensures Drive(cfg, k, Begin, c, turns, 0).0 == Idle(Error)
  {
    DriveStep(cfg, k, Begin, c, turns, 0);
    DriveStep(cfg, k, FetchSpace(c.sessions[k]), c, turns, 1);
    DriveStep(cfg, k, Idle(Error), c, turns, 2);
  }

  /** Up to its expiry a session is reconciled again within a minute; after it, the next
      reconcile marks it deleted. */
  lemma TickingReconcile(cfg: Config, k: string, c: Cluster, turns: nat -> Turn, u: Uid, expiry: int)
    requires Ok(c, k, Begin) && Ticking(c, k, u, expiry) && AllDone(turns)
    requires Drive(cfg, k, Begin, c, turns, 0).0 != Idle(Error)
    ensures var (l, d, _) := Drive(cfg, k, Begin, c, turns, 0);
      if c.clock <= expiry then Deadline(l, d) <= c.clock + MINUTE else Going(d, k, u)
  {
    var s := c.sessions[k];
    if s.spaceRef !in c.spaces {
      MissingSpaceFails(cfg, k, c, turns);
    } else if c.clock > expiry {
      ExpiredAttempt(cfg, k, c, turns);
    } else {
      DriveKeepsTicking(cfg, k, Begin, c, turns, 0, u, expiry);
      if RestartPending(s) {
        PendingAttempt(cfg, k, c, turns);
      } else {
        var done := LiveAttempt(cfg, k, c, turns);
      }
    }
  }

  lemma {:induction false} DeletedByDeadline(cfg: Config, k: string, c: Cluster, deadline: int, wakes: seq<Wake>,
                                             u: Uid, expiry: int, limit: int)
    requires Ok(c, k, Begin) && u < c.nextUid && (Ticking(c, k, u, expiry) || Going(c, k, u))
    requires limit >= expiry + MINUTE && (Ticking(c, k, u, expiry) ==> deadline <= limit)
    requires Honoured(cfg, k, c, deadline, wakes)
    ensures DeletedInTime(cfg, k, c, wakes, u, expiry, limit)
    decreases |wakes|
  {
    if wakes == [] {
      return;
    }
    var c1, turns := EnvRun(c, wakes[0].env), wakes[0].turns;
    var (l, d, _) := Drive(cfg, k, Begin, c1, turns, 0);
    EnvRunOk(c, k, Begin, wakes[0].env);
    if Going(c, k, u) {
      GoingStays(c, k, u, wakes[0].env);
    } else {
      TickingStays(c, k, u, expiry, wakes[0].env);
    }
    if !Going(c1, k, u) {
      TickingReconcile(cfg, k, c1, turns, u, expiry);
      DriveKeepsTicking(cfg, k, Begin, c1, turns, 0, u, expiry);
      DriveOk(cfg, k, Begin, c1, turns, 0);
      DeletedByDeadline(cfg, k, d, Deadline(l, d), wakes[1..], u, expiry, limit);
    }
  }

  lemma ExpiryFrom(cfg: Config, k: string, c: Cluster, wakes: seq<Wake>, expiry: int)
    requires Ok(c, k, Begin) && k in c.sessions && !c.sessions[k].deleting
    requires c.sessions[k].status.expiredTime == Some(expiry) && Honoured(cfg, k, c, expiry + MINUTE, wakes)
    ensures DeletedInTime(cfg, k, c, wakes, c.sessions[k].uid, expiry, expiry + MINUTE)
  {
    DeletedByDeadline(cfg, k, c, expiry + MINUTE, wakes, c.sessions[k].uid, expiry, expiry + MINUTE);
  }

  /** From any state a run can reach, if from then on no call fails, no reconcile reports
      an error and every requeue is honoured, then until its incarnation is going a session
      is reconciled no later than a minute after its expiry, and the first reconcile after
      the expiry deletes it. The environment is free to edit, restart or reconcile early. */
  lemma ExpiryWithinAMinute(cfg: Config, moves: seq<Move>, k: string, wakes: seq<Wake>, expiry: int)
    requires var c := Run(cfg, START, moves).cluster;
      && k in c.sessions && !c.sessions[k].deleting && c.sessions[k].status.expiredTime == Some(expiry)
      && Honoured(cfg, k, c, expiry + MINUTE, wakes)
    ensures var c := Run(cfg, START, moves).cluster;
      DeletedInTime(cfg, k, c, wakes, c.sessions[k].uid, expiry, expiry + MINUTE)
  {
    RunInv(cfg, moves);
    var g := Run(cfg, START, moves);
    assert Ok(g.cluster, k, LocalOf(g, k));
    ExpiryFrom(cfg, k, g.cluster, wakes, expiry);
  }

  /** The expiry the first live reconcile sets, in whole seconds. */
  function FirstExpiry(cfg: Config, k: string, c: Cluster): int
    requires Live(c, k)
  {
    WholeSeconds(c.clock + Ttl(cfg, SpaceOf(c, k)))
  }

  lemma TimersWritten(cfg: Config, k: string, c: Cluster, l: Local, d: Cluster, done: nat)
    requires Live(c, k) && c.sessions[k].status.startTime.None? && Leaves(cfg, c, k, l, d, done) && Succeeded(l)
    ensures Ticking(d, k, c.sessions[k].uid, FirstExpiry(cfg, k, c)) && Deadline(l, d) <= c.clock + MINUTE
  {
    assert d.sessions[k] == WrittenAt(cfg, c, k, PodsAt(d, k));
  }

  /** By when a session is gone whose timers start in c: a minute after its expiry, or after
      the start when its lifetime is so short that it expires at once. */
  function LifetimeLimit(cfg: Config, k: string, c: Cluster): (limit: int)
    requires Live(c, k)
    ensures Ttl(cfg, SpaceOf(c, k)) >= SECOND ==> limit == FirstExpiry(cfg, k, c) + MINUTE
    ensures Ttl(cfg, SpaceOf(c, k)) == 0 ==> limit < FirstExpiry(cfg, k, c) + SECOND + MINUTE
  {
    (if FirstExpiry(cfg, k, c) < c.clock then c.clock else FirstExpiry(cfg, k, c)) + MINUTE
  }

  /** The first live reconcile fixes the expiry and is due again in time. */
  lemma TimersStart(cfg: Config, k: string, c: Cluster, turns: nat -> Turn)
    requires AllDone(turns) && Live(c, k) && c.sessions[k].status.startTime.None?
    requires Succeeded(Drive(cfg, k, Begin, c, turns, 0).0)
    ensures var (l, d, _) := Drive(cfg, k, Begin, c, turns, 0);
      && Ticking(d, k, c.sessions[k].uid, FirstExpiry(cfg, k, c))
      && d.nextUid == c.nextUid
      && Deadline(l, d) <= LifetimeLimit(cfg, k, c)
  {
    var done := LiveAttempt(cfg, k, c, turns);
    var (l, d, _) := Drive(cfg, k, Begin, c, turns, 0);
    TimersWritten(cfg, k, c, l, d, done);
  }

  lemma LifetimeFrom(cfg: Config, k: string, c: Cluster, turns: nat -> Turn, wakes: seq<Wake>)
    requires Ok(c, k, Begin)
    requires AllDone(turns) && Live(c, k) && c.sessions[k].status.startTime.None?
    requires var (l, d, _) := Drive(cfg, k, Begin, c, turns, 0);
      Succeeded(l) && Honoured(cfg, k, d, Deadline(l, d), wakes)
    ensures DeletedInTime(cfg, k, Drive(cfg, k, Begin, c, turns, 0).1, wakes, c.sessions[k].uid,
                          FirstExpiry(cfg, k, c), LifetimeLimit(cfg, k, c))
  {
    var (l, d, _) := Drive(cfg, k, Begin, c, turns, 0);
    TimersStart(cfg, k, c, turns);
    DriveOk(cfg, k, Begin, c, turns, 0);
    DeletedByDeadline(cfg, k, d, Deadline(l, d), wakes, c.sessions[k].uid, FirstExpiry(cfg, k, c),
                      LifetimeLimit(cfg, k, c));
  }

  /** A session's whole life, whatever its lifetime parses to: from the reconcile that starts
      its timers to its deletion no later than a minute after the later of start and expiry. */
  lemma LifetimeBounded(cfg: Config, moves: seq<Move>, k: string, turns: nat -> Turn, wakes: seq<Wake>)
    requires AllDone(turns) && Live(Run(cfg, START, moves).cluster, k)
    requires Run(cfg, START, moves).cluster.sessions[k].status.startTime.None?
    requires var (l, d, _) := Drive(cfg, k, Begin, Run(cfg, START, moves).cluster, turns, 0);
      Succeeded(l) && Honoured(cfg, k, d, Deadline(l, d), wakes)
    ensures var c := Run(cfg, START, moves).cluster;
      DeletedInTime(cfg, k, Drive(cfg, k, Begin, c, turns, 0).1, wakes, c.sessions[k].uid,
                    FirstExpiry(cfg, k, c), LifetimeLimit(cfg, k, c))
  {
    RunInv(cfg, moves);
    var g := Run(cfg, START, moves);
    assert Ok(g.cluster, k, LocalOf(g, k));
    LifetimeFrom(cfg, k, g.cluster, turns, wakes);
  }

  /** The minute is needed: a reconcile exactly at the expiry of a running session whose
      status is up to date deletes nothing and asks to be run again only a minute later. */
  lemma MinuteIsTight(cfg: Config, k: string, c: Cluster, turns: nat -> Turn)
    requires AllDone(turns) && Live(c, k) && DistinctNames(c.services)
    requires c.sessions[k].status.expiredTime == Some(c.clock) && c.sessions[k].status.phase == Running
    requires UpToDate(cfg, c, k, c.sessions[k].status)
    requires Succeeded(Drive(cfg, k, Begin, c, turns, 0).0)
    ensures var (l, d, _) := Drive(cfg, k, Begin, c, turns, 0);
      l == Idle(After(MINUTE)) && d.sessions == c.sessions
  {
    var done := LiveAttempt(cfg, k, c, turns);
    var d := Drive(cfg, k, Begin, c, turns, 0).1;
    var plan := PlanOf(cfg, c, k);
    assert plan[..|plan|] == plan;
    EndIsSome(cfg, c, k);
    SyncedAtEnd(cfg, c, k, c, PodsAt(d, k));
  }
}
