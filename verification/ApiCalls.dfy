/** A reconcile read as whole stretches of API calls, and as moves of the system. */
module ApiCalls {
  import opened Objects
  import opened Actions
  import opened StatusSync
  import opened Protocol

  // ------------------------------------------------------------ stretches of calls

  /** Runs the actions one call each, up to the first that does not succeed. */
  function RunActs(k: string, acts: seq<Action>, who: Birth, c: Cluster, turns: nat -> Turn, i: nat)
    : (Cluster, nat, bool)
    decreases |acts|
  {
    if acts == [] then (c, i, true)
    else
      var (c', ok) := Act(EnvRun(c, turns(i).env), k, acts[0], who, turns(i).outcome);
      if ok then RunActs(k, acts[1..], who, c', turns, i + 1) else (c', i + 1, false)
  }

  lemma {:induction false} RunActsConcat(k: string, a: seq<Action>, b: seq<Action>, who: Birth, c: Cluster,
                                         turns: nat -> Turn, i: nat)
    ensures var (c1, i1, ok) := RunActs(k, a, who, c, turns, i);
      RunActs(k, a + b, who, c, turns, i) == if ok then RunActs(k, b, who, c1, turns, i1) else (c1, i1, false)
    decreases |a|
  {
    if a == [] {
      assert a + b == b;
    } else {
      assert (a + b)[1..] == a[1..] + b;
      var (c', ok) := Act(EnvRun(c, turns(i).env), k, a[0], who, turns(i).outcome);
      if ok {
        RunActsConcat(k, a[1..], b, who, c', turns, i + 1);
      }
    }
  }

  lemma RunOne(k: string, a: Action, who: Birth, c: Cluster, turns: nat -> Turn, i: nat)
    ensures var (c', ok) := Act(EnvRun(c, turns(i).env), k, a, who, turns(i).outcome);
      RunActs(k, [a], who, c, turns, i) == (c', i + 1, ok)
  {
    assert [a][1..] == [];
  }

  lemma Unfold(cfg: Config, k: string, l: Local, c: Cluster, turns: nat -> Turn, i: nat)
    ensures l.Idle? ==> Drive(cfg, k, l, c, turns, i) == (l, c, i)
    ensures !l.Idle? ==>
      var (l', c') := Step(cfg, k, l, EnvRun(c, turns(i).env), turns(i).outcome);
      Drive(cfg, k, l, c, turns, i) == Drive(cfg, k, l', c', turns, i + 1)
  {
  }

  lemma {:induction false} SetupStretch(cfg: Config, k: string, s: Session, space: Space, todo: seq<Action>, c: Cluster,
                                        turns: nat -> Turn, i: nat)
    ensures var (c', i', ok) := RunActs(k, todo, WhoOf(s, space), c, turns, i);
      Drive(cfg, k, SettingUp(cfg, s, space, todo), c, turns, i)
      == if ok then Drive(cfg, k, SettingUp(cfg, s, space, []), c', turns, i') else (Idle(Error), c', i')
    decreases |todo|
  {
    if todo != [] {
      var (c', ok) := Act(EnvRun(c, turns(i).env), k, todo[0], WhoOf(s, space), turns(i).outcome);
      Unfold(cfg, k, Setup(s, space, todo), c, turns, i);
      Unfold(cfg, k, Idle(Error), c', turns, i + 1);
      if ok {
        SetupStretch(cfg, k, s, space, todo[1..], c', turns, i + 1);
      }
    }
  }

  /** The clock read after the last call of the stretch is the time of the status pass. */
  lemma {:induction false} WorkStretch(cfg: Config, k: string, s: Session, space: Space, svcs: seq<LabService>,
                                       todo: seq<Action>, c: Cluster, turns: nat -> Turn, i: nat)
    ensures var (c', i', ok) := RunActs(k, todo, WhoOf(s, space), c, turns, i);
      Drive(cfg, k, Working(s, space, svcs, todo, c.clock), c, turns, i)
      == if ok then Drive(cfg, k, ListForStatus(s, space, svcs, c'.clock), c', turns, i') else (Idle(Error), c', i')
    decreases |todo|
  {
    if todo != [] {
      var (c', ok) := Act(EnvRun(c, turns(i).env), k, todo[0], WhoOf(s, space), turns(i).outcome);
      Unfold(cfg, k, Work(s, space, svcs, todo), c, turns, i);
      Unfold(cfg, k, Idle(Error), c', turns, i + 1);
      if ok {
        WorkStretch(cfg, k, s, space, svcs, todo[1..], c', turns, i + 1);
      }
    }
  }

  /** Issues one delete per name, whatever each reports. */
  function RunDeletes(k: string, names: seq<string>, c: Cluster, turns: nat -> Turn, i: nat,
                      failed: set<string>): (Cluster, nat, set<string>)
    decreases |names|
  {
    if names == [] then (c, i, failed)
    else
      var (c', ok) := DeletePod(EnvRun(c, turns(i).env), k, names[0], turns(i).outcome);
      RunDeletes(k, names[1..], c', turns, i + 1, if ok then failed else failed + {names[0]})
  }

  lemma {:induction false} RunDeletesConcat(k: string, a: seq<string>, b: seq<string>, c: Cluster, turns: nat -> Turn,
                                            i: nat, failed: set<string>)
    ensures var (c1, i1, failed1) := RunDeletes(k, a, c, turns, i, failed);
      RunDeletes(k, a + b, c, turns, i, failed) == RunDeletes(k, b, c1, turns, i1, failed1)
    decreases |a|
  {
    if a == [] {
      assert a + b == b;
    } else {
      assert (a + b)[1..] == a[1..] + b;
      var (c', ok) := DeletePod(EnvRun(c, turns(i).env), k, a[0], turns(i).outcome);
      RunDeletesConcat(k, a[1..], b, c', turns, i + 1, if ok then failed else failed + {a[0]});
    }
  }

  lemma {:induction false} DeleteStretch(cfg: Config, k: string, s: Session, names: seq<string>, c: Cluster,
                                         turns: nat -> Turn, i: nat, failed: set<string>)
    ensures var (c', i', failed') := RunDeletes(k, names, c, turns, i, failed);
      Drive(cfg, k, Deleting(s, names, failed), c, turns, i) == Drive(cfg, k, MarkHandled(s, failed'), c', turns, i')
    decreases |names|
  {
    if names != [] {
      var (c', ok) := DeletePod(EnvRun(c, turns(i).env), k, names[0], turns(i).outcome);
      Unfold(cfg, k, DeletePods(s, names, failed), c, turns, i);
      DeleteStretch(cfg, k, s, names[1..], c', turns, i + 1, if ok then failed else failed + {names[0]});
    }
  }

  // ------------------------------------------------------------- single calls

  lemma BeginUnfold(cfg: Config, k: string, c: Cluster, turns: nat -> Turn, i: nat)
    ensures var c1 := EnvRun(c, turns(i).env);
      Drive(cfg, k, Begin, c, turns, i)
      == if !turns(i).outcome.Done? then (Idle(Error), c1, i + 1)
         else if k !in c1.sessions then (Idle(Stop), c1, i + 1)
         else Drive(cfg, k, Received(c1.sessions[k]), c1, turns, i + 1)
  {
    var (l1, c1) := Step(cfg, k, Begin, EnvRun(c, turns(i).env), turns(i).outcome);
    Unfold(cfg, k, Begin, c, turns, i);
    if l1.Idle? {
      Unfold(cfg, k, l1, c1, turns, i + 1);
    }
  }

  lemma FetchUnfold(cfg: Config, k: string, s: Session, c: Cluster, turns: nat -> Turn, i: nat)
    ensures var c1 := EnvRun(c, turns(i).env);
      Drive(cfg, k, FetchSpace(s), c, turns, i)
      == if !turns(i).outcome.Done? || s.spaceRef !in c1.spaces then (Idle(Error), c1, i + 1)
         else
           var space := c1.spaces[s.spaceRef];
           Drive(cfg, k, if Expired(s, c1.clock) then Expire(s) else SettingUp(cfg, s, space, SetupPlan(cfg, space)),
                 c1, turns, i + 1)
  {
    var (l1, c1) := Step(cfg, k, FetchSpace(s), EnvRun(c, turns(i).env), turns(i).outcome);
    Unfold(cfg, k, FetchSpace(s), c, turns, i);
    if l1.Idle? {
      Unfold(cfg, k, l1, c1, turns, i + 1);
    }
  }

  lemma RestartUnfold(cfg: Config, k: string, s: Session, c: Cluster, turns: nat -> Turn, i: nat)
    ensures var c1 := EnvRun(c, turns(i).env);
      Drive(cfg, k, ListForRestart(s), c, turns, i)
      == if !turns(i).outcome.Done? then (Idle(Error), c1, i + 1)
         else
           var (c2, i2, failed) := RunDeletes(k, LiveNames(PodsAt(c1, k)), c1, turns, i + 1, {});
           Drive(cfg, k, MarkHandled(s, failed), c2, turns, i2)
  {
    var c1 := EnvRun(c, turns(i).env);
    Unfold(cfg, k, ListForRestart(s), c, turns, i);
    Unfold(cfg, k, Idle(Error), c1, turns, i + 1);
    DeleteStretch(cfg, k, s, LiveNames(PodsAt(c1, k)), c1, turns, i + 1, {});
  }

  lemma MarkUnfold(cfg: Config, k: string, s: Session, failed: set<string>, c: Cluster, turns: nat -> Turn, i: nat)
    ensures var (c1, r) := UpdateSession(EnvRun(c, turns(i).env), k, s.(handled := s.requested), turns(i).outcome);
      Drive(cfg, k, MarkHandled(s, failed), c, turns, i)
      == if r.Got? then Drive(cfg, k, RestartStatus(r.value), c1, turns, i + 1) else (Idle(Error), c1, i + 1)
  {
    Unfold(cfg, k, MarkHandled(s, failed), c, turns, i);
    var c1 := UpdateSession(EnvRun(c, turns(i).env), k, s.(handled := s.requested), turns(i).outcome).0;
    Unfold(cfg, k, Idle(Error), c1, turns, i + 1);
  }

  lemma ListUnfold(cfg: Config, k: string, s: Session, space: Space, c: Cluster, turns: nat -> Turn, i: nat)
    ensures var c1 := EnvRun(c, turns(i).env);
      var svcs := cfg.Selected(space.selector, c1.services);
      Drive(cfg, k, ListForWork(s, space), c, turns, i)
      == if turns(i).outcome.Done?
         then Drive(cfg, k, Working(s, space, svcs, WorkPlan(cfg, k, s.userId, space, svcs), c1.clock), c1, turns,
                    i + 1)
         else (Idle(Error), c1, i + 1)
  {
    var (l1, c1) := Step(cfg, k, ListForWork(s, space), EnvRun(c, turns(i).env), turns(i).outcome);
    Unfold(cfg, k, ListForWork(s, space), c, turns, i);
    if l1.Idle? {
      Unfold(cfg, k, l1, c1, turns, i + 1);
    }
  }

  lemma StatusUnfold(cfg: Config, k: string, s: Session, space: Space, svcs: seq<LabService>, now: int, c: Cluster,
                     turns: nat -> Turn, i: nat)
    ensures var c1 := EnvRun(c, turns(i).env);
      Drive(cfg, k, ListForStatus(s, space, svcs, now), c, turns, i)
      == if !turns(i).outcome.Done? then (Idle(Error), c1, i + 1)
         else
           var (status, changed) := Synced(cfg, k, s.userId, s.status, space, svcs, PodsAt(c1, k), now);
           if changed then Drive(cfg, k, WriteStatus(s.(status := status)), c1, turns, i + 1)
           else (Idle(After(Requeue(status, c1.clock))), c1, i + 1)
  {
    var l := ListForStatus(s, space, svcs, now);
    var (l1, c1) := Step(cfg, k, l, EnvRun(c, turns(i).env), turns(i).outcome);
    Unfold(cfg, k, l, c, turns, i);
    Unfold(cfg, k, l1, c1, turns, i + 1);
  }

  lemma WriteUnfold(cfg: Config, k: string, s: Session, c: Cluster, turns: nat -> Turn, i: nat)
    ensures var (c1, r) := UpdateStatus(EnvRun(c, turns(i).env), k, s, turns(i).outcome);
      Drive(cfg, k, WriteStatus(s), c, turns, i)
      == (Idle(if r.Got? then After(Requeue(r.value.status, c1.clock)) else Error), c1, i + 1)
  {
    var (l1, c1) := Step(cfg, k, WriteStatus(s), EnvRun(c, turns(i).env), turns(i).outcome);
    Unfold(cfg, k, WriteStatus(s), c, turns, i);
    Unfold(cfg, k, l1, c1, turns, i + 1);
  }

  lemma LastCallUnfold(cfg: Config, k: string, l: Local, c: Cluster, turns: nat -> Turn, i: nat)
    requires l.PutFinalizer? || l.DropFinalizer? || l.Expire? || l.RestartStatus?
    ensures var (l1, c1) := Step(cfg, k, l, EnvRun(c, turns(i).env), turns(i).outcome);
      Drive(cfg, k, l, c, turns, i) == (l1, c1, i + 1)
  {
    var (l1, c1) := Step(cfg, k, l, EnvRun(c, turns(i).env), turns(i).outcome);
    Unfold(cfg, k, l, c, turns, i);
    Unfold(cfg, k, l1, c1, turns, i + 1);
  }

  // --------------------------------------------------------- a reconcile as a run

  function EnvMoves(steps: seq<EnvStep>): seq<Move> {
    if steps == [] then [] else [Env(steps[0])] + EnvMoves(steps[1..])
  }

  /** The moves a reconcile in progress and its surroundings make. */
  function DriveMoves(cfg: Config, k: string, l: Local, c: Cluster, turns: nat -> Turn, i: nat): seq<Move>
    decreases Stage(l), Remaining(l)
  {
    if l.Idle? then []
    else
      var c1 := EnvRun(c, turns(i).env);
      var (l', c') := Step(cfg, k, l, c1, turns(i).outcome);
      StepProgress(cfg, k, l, c1, turns(i).outcome);
      EnvMoves(turns(i).env) + [Ctl(k, turns(i).outcome)] + DriveMoves(cfg, k, l', c', turns, i + 1)
  }

  lemma {:induction false} RunConcat(cfg: Config, g: System, a: seq<Move>, b: seq<Move>)
    ensures Run(cfg, g, a + b) == Run(cfg, Run(cfg, g, a), b)
    decreases |b|
  {
    if b == [] {
      assert a + b == a;
    } else {
      var front, last := b[..|b| - 1], b[|b| - 1];
      assert (a + b)[..|a + b| - 1] == a + front;
      RunConcat(cfg, g, a, front);
    }
  }

  lemma {:induction false} RunEnvMoves(cfg: Config, g: System, steps: seq<EnvStep>)
    ensures Run(cfg, g, EnvMoves(steps)) == g.(cluster := EnvRun(g.cluster, steps))
    decreases |steps|
  {
    if steps != [] {
      RunConcat(cfg, g, [Env(steps[0])], EnvMoves(steps[1..]));
      assert [Env(steps[0])][..0] == [];
      RunEnvMoves(cfg, g.(cluster := EnvApply(g.cluster, steps[0])), steps[1..]);
    }
  }

  lemma RunLast(cfg: Config, g: System, move: Move)
    ensures Run(cfg, g, [move]) == Next(cfg, g, move)
  {
    assert [move][..0] == [];
  }

  lemma OneCall(cfg: Config, g: System, k: string, env: seq<EnvStep>, o: Outcome)
    ensures Run(cfg, g, EnvMoves(env) + [Ctl(k, o)]) == Next(cfg, g.(cluster := EnvRun(g.cluster, env)), Ctl(k, o))
  {
    RunEnvMoves(cfg, g, env);
    RunConcat(cfg, g, EnvMoves(env), [Ctl(k, o)]);
    RunLast(cfg, g.(cluster := EnvRun(g.cluster, env)), Ctl(k, o));
  }

  predicate StandsAt(g: System, k: string, l: Local) {
    if l.Idle? then k in g.locals && g.locals[k] == l else Started(LocalOf(g, k)) == l
  }

  /** A whole reconcile is a run of the system, so everything that holds in all runs holds
      after it, and between any two of its calls. */
  lemma {:induction false} DriveIsRun(cfg: Config, g: System, k: string, l: Local, turns: nat -> Turn, i: nat)
    requires StandsAt(g, k, l)
    ensures var (l', c', _) := Drive(cfg, k, l, g.cluster, turns, i);
      Run(cfg, g, DriveMoves(cfg, k, l, g.cluster, turns, i)) == System(c', g.locals[k := l'])
    decreases Stage(l), Remaining(l)
  {
    if l.Idle? {
      assert g.locals[k := l] == g.locals;
    } else {
      var env, o := turns(i).env, turns(i).outcome;
      var c1 := EnvRun(g.cluster, env);
      var (l', c') := Step(cfg, k, l, c1, o);
      var g' := System(c', g.locals[k := l']);
      StepProgress(cfg, k, l, c1, o);
      OneCall(cfg, g, k, env, o);
      RunConcat(cfg, g, EnvMoves(env) + [Ctl(k, o)], DriveMoves(cfg, k, l', c', turns, i + 1));
      DriveIsRun(cfg, g', k, l', turns, i + 1);
      Unfold(cfg, k, l, g.cluster, turns, i);
      Overwritten(g.locals, k, l', Drive(cfg, k, l', c', turns, i + 1).0);
    }
  }

  lemma Overwritten(m: map<string, Local>, k: string, a: Local, b: Local)
    ensures m[k := a][k := b] == m[k := b]
  {
  }
}
