/** What holds in every run of the CTFTask reconciler. */
module CtfTaskRuns {
  import opened Common
  import Objects
  import StatusSync
  import P = Protocol
  import opened CtfTask

  // -------------------------------------------------------------------- invariants

  /** What the message says in each phase. */
  predicate Told(status: TaskStatus) {
    match status.phase
    case Unset => status.message == NoMessage
    case Pending => status.message == Creating
    case Provisioning => status.message == Creating || status.message == Waiting
    case Ready => status.message == AllGood
    case Failed => status.message.EnsureFailed?
  }

  predicate TaskOk(cfg: TaskConfig, w: World) {
    w.task.Some? ==>
      var t := w.task.value;
      && t.uid < w.nextUid
      && (t.status.phase == Unset <==> t.status.expiry.None?)
      && StatusSync.StoredTime(t.status.expiry) == t.status.expiry
      && (t.status.phase == Ready ==> t.status.endpoint == Url(cfg))
      && Told(t.status)
  }

  /** The phases a write may replace. */
  predicate Edge(a: TaskPhase, b: TaskPhase) {
    || (a == Unset && b == Pending)
    || (a == Pending && b == Provisioning)
    || (Working(a) && Working(b))
  }

  predicate Working(p: TaskPhase) {
    p == Provisioning || p == Ready || p == Failed
  }

  /** A task that took the name of the one in hand has not been reconciled yet. */
  predicate Untouched(w: World, t: Task) {
    w.task.Some? && w.task.value.uid != t.uid ==> w.task.value.status.phase == Unset
  }

  /** What the copy of a task in a reconcile's hands says about the stored one. */
  predicate Copy(w: World, t: Task) {
    && t.uid < w.nextUid
    && Untouched(w, t)
    && (w.task.Some? && w.task.value.uid == t.uid ==>
          && t.version <= w.task.value.version
          && (t.version == w.task.value.version ==> t == w.task.value)
          && (t.status.expiry.Some? ==> w.task.value.status.expiry == t.status.expiry))
  }

  /** A copy whose status has been prepared for writing. */
  predicate Draft(cfg: TaskConfig, w: World, t: Task) {
    && t.uid < w.nextUid
    && Untouched(w, t)
    && t.status.expiry.Some?
    && (t.status.phase == Ready ==> t.status.endpoint == Url(cfg))
    && Told(t.status)
    && (w.task.Some? && w.task.value.uid == t.uid ==>
          && t.version <= w.task.value.version
          && (t.version == w.task.value.version ==>
                && t.spec == w.task.value.spec
                && Edge(w.task.value.status.phase, t.status.phase)
                && (w.task.value.status.phase != Unset ==> t.status.expiry == w.task.value.status.expiry)))
  }

  predicate LocalOk(cfg: TaskConfig, w: World, l: Local) {
    match l
    case Idle(_) => true
    case Begin => true
    case Expiring(t) => Copy(w, t) && Expired(t, w.clock)
    case Initializing(t) => Draft(cfg, w, t) && t.status.phase == Pending
    case Starting(t) => Draft(cfg, w, t) && t.status.phase == Provisioning
    case EnsuringPod(t) => Copy(w, t) && UnderWay(cfg, t)
    case EnsuringService(t) => Copy(w, t) && UnderWay(cfg, t)
    case EnsuringPolicy(t) => Copy(w, t) && UnderWay(cfg, t)
    case ReportingFailure(t) => Draft(cfg, w, t) && t.status.phase == Failed
    case CheckingPod(t) => Copy(w, t) && UnderWay(cfg, t)
    case WritingResult(t) => Draft(cfg, w, t) && Working(t.status.phase)
  }

  predicate UnderWay(cfg: TaskConfig, t: Task) {
    && Working(t.status.phase) && t.status.expiry.Some?
    && (t.status.phase == Ready ==> t.status.endpoint == Url(cfg))
    && Told(t.status)
  }

  predicate Ok(cfg: TaskConfig, w: World, l: Local) {
    TaskOk(cfg, w) && LocalOk(cfg, w, l)
  }

  /** The calls that read or write the task itself. */
  predicate TaskCall(l: Local) {
    l.Begin? || l.Expiring? || l.Initializing? || l.Starting? || l.ReportingFailure? || l.WritingResult?
  }

  lemma TaskCallOk(cfg: TaskConfig, l: Local, w: World, o: P.Outcome)
    requires Ok(cfg, w, l) && TaskCall(l)
    ensures var (l', w') := Step(cfg, l, w, o); Ok(cfg, w', l')
  {
  }

  lemma EnsureCallOk(cfg: TaskConfig, l: Local, w: World, o: P.Outcome)
    requires Ok(cfg, w, l) && (l.EnsuringPod? || l.EnsuringService? || l.EnsuringPolicy?)
    ensures var (l', w') := Step(cfg, l, w, o); Ok(cfg, w', l')
  {
  }

  lemma CheckCallOk(cfg: TaskConfig, l: Local, w: World, o: P.Outcome)
    requires Ok(cfg, w, l) && (l.CheckingPod? || l.Idle?)
    ensures var (l', w') := Step(cfg, l, w, o); Ok(cfg, w', l')
  {
  }

  lemma StepOk(cfg: TaskConfig, l: Local, w: World, o: P.Outcome)
    requires Ok(cfg, w, l)
    ensures var (l', w') := Step(cfg, l, w, o); Ok(cfg, w', l')
  {
    if TaskCall(l) {
      TaskCallOk(cfg, l, w, o);
    } else if l.CheckingPod? || l.Idle? {
      CheckCallOk(cfg, l, w, o);
    } else {
      EnsureCallOk(cfg, l, w, o);
    }
  }

  lemma EnvOk(cfg: TaskConfig, l: Local, w: World, e: EnvStep)
    requires Ok(cfg, w, l)
    ensures Ok(cfg, EnvApply(w, e), l)
  {
  }

  lemma NextOk(cfg: TaskConfig, g: System, move: Move)
    requires Ok(cfg, g.world, g.local)
    ensures Ok(cfg, Next(cfg, g, move).world, Next(cfg, g, move).local)
  {
    match move
    case Ctl(o) => StepOk(cfg, Started(g.local), g.world, o);
    case Crash =>
    case Env(e) => EnvOk(cfg, g.local, g.world, e);
  }

  lemma {:induction false} RunOk(cfg: TaskConfig, moves: seq<Move>)
    ensures var g := Run(cfg, START, moves); Ok(cfg, g.world, g.local)
  {
    if moves != [] {
      RunOk(cfg, moves[..|moves| - 1]);
      NextOk(cfg, Run(cfg, START, moves[..|moves| - 1]), moves[|moves| - 1]);
    }
  }

  // ------------------------------------------------------------ phases and the expiry

  /** The stored phase only moves along the edges, from "" through Pending and Provisioning
      and then among Provisioning, Ready and Failed, with a message that fits it; the expiry
      is stored with Pending and never changes again. */
  lemma PhasesFollowEdges(cfg: TaskConfig, moves: seq<Move>, move: Move)
    ensures var g := Run(cfg, START, moves);
      var g' := Next(cfg, g, move);
      g.world.task.Some? && g'.world.task.Some? && g.world.task.value.uid == g'.world.task.value.uid
      ==> var a, b := g.world.task.value.status, g'.world.task.value.status;
          && (a.phase == b.phase || Edge(a.phase, b.phase))
          && (a.phase == Unset <==> a.expiry.None?) && (b.phase == Unset <==> b.expiry.None?)
          && (a.phase != Unset ==> b.expiry == a.expiry)
          && (b.phase == Ready ==> b.endpoint == Url(cfg)) && Told(b)
  {
    RunOk(cfg, moves);
    NextOk(cfg, Run(cfg, START, moves), move);
  }

  // -------------------------------------------------------------- what Ready promises

  predicate HasPod(w: World, uid: Objects.Uid) {
    w.pod.Some? && w.pod.value.owner == Some(Objects.Own(uid))
  }

  predicate HasService(w: World, uid: Objects.Uid) {
    w.service.Some? && w.service.value.owner == Some(Objects.Own(uid))
  }

  predicate HasPolicy(w: World, uid: Objects.Uid) {
    w.policy.Some? && w.policy.value.owner == Some(Objects.Own(uid))
  }

  predicate Complete(w: World, uid: Objects.Uid) {
    HasPod(w, uid) && HasService(w, uid) && HasPolicy(w, uid)
  }

  predicate Alive(w: World, t: Task) {
    w.task.Some? && w.task.value.uid == t.uid
  }

  /** What the calls made so far have put in place for a task that is still there. */
  predicate Built(w: World, l: Local) {
    match l
    case EnsuringService(t) => Alive(w, t) ==> HasPod(w, t.uid)
    case EnsuringPolicy(t) => Alive(w, t) ==> HasPod(w, t.uid) && HasService(w, t.uid)
    case CheckingPod(t) => Alive(w, t) ==> Complete(w, t.uid)
    case WritingResult(t) => Alive(w, t) ==> Complete(w, t.uid)
    case _ => true
  }

  predicate ReadyComplete(w: World) {
    w.task.Some? && w.task.value.status.phase == Ready ==> Complete(w, w.task.value.uid)
  }

  lemma NextBuilt(cfg: TaskConfig, g: System, move: Move)
    requires Ok(cfg, g.world, g.local) && Built(g.world, g.local) && ReadyComplete(g.world)
    requires !(move.Env? && move.step.Removed?)
    ensures Built(Next(cfg, g, move).world, Next(cfg, g, move).local) && ReadyComplete(Next(cfg, g, move).world)
  {
  }

  lemma {:induction false} RunBuilt(cfg: TaskConfig, moves: seq<Move>)
    requires forall m :: m in moves ==> !(m.Env? && m.step.Removed?)
    ensures var g := Run(cfg, START, moves); Built(g.world, g.local) && ReadyComplete(g.world)
  {
    if moves != [] {
      var front, last := moves[..|moves| - 1], moves[|moves| - 1];
      RunBuilt(cfg, front);
      RunOk(cfg, front);
      assert last in moves;
      NextBuilt(cfg, Run(cfg, START, front), last);
    }
  }

  /** As long as nobody else deletes its objects, a task that is Ready has its pod, service
      and network policy, all owned by it, and its address. */
  lemma ReadyMeansServed(cfg: TaskConfig, moves: seq<Move>)
    requires forall m :: m in moves ==> !(m.Env? && m.step.Removed?)
    ensures var w := Run(cfg, START, moves).world;
      w.task.Some? && w.task.value.status.phase == Ready
      ==> Complete(w, w.task.value.uid) && w.task.value.status.endpoint == Url(cfg)
  {
    RunBuilt(cfg, moves);
    RunOk(cfg, moves);
  }

  // ------------------------------------------------------------------------ deletion

  /** The controller takes a task away only when the one it had read is past its expiry. The
      task that goes has expired exactly when it is that one: a later one that took the name
      in between never has. */
  lemma DeletesWhatExpired(cfg: TaskConfig, moves: seq<Move>, o: P.Outcome)
    ensures var g := Run(cfg, START, moves);
      var g' := Next(cfg, g, Ctl(o));
      g.world.task.Some? && g'.world.task.None?
      ==> && g.local.Expiring? && Expired(g.local.t, g.world.clock)
          && (Expired(g.world.task.value, g.world.clock) <==> g.local.t.uid == g.world.task.value.uid)
  {
    RunOk(cfg, moves);
    var g := Run(cfg, START, moves);
    assert Ok(cfg, g.world, g.local);
  }

  /** The user deletes the expired task and creates it again before the delete call lands. */
  function RecreateScenario(spec: TaskSpec): seq<Move> {
    [Ctl(P.Done(0)), Env(UserDeletes), Env(UserCreates(spec)), Ctl(P.Done(0))]
  }

  /** Every expired task can lose its successor that way: the fresh task, which has no
      expiry yet, is deleted. A session is safe from this, its finalizer pins the name. */
  lemma FreshTaskDeleted(cfg: TaskConfig, g: System, spec: TaskSpec)
    requires g.local.Idle? && g.world.task.Some? && Expired(g.world.task.value, g.world.clock)
    ensures var m := RecreateScenario(spec);
      && Run(cfg, g, m[..3]).world.task == Some(Task(g.world.nextUid, 0, spec, NEW_STATUS))
      && Run(cfg, g, m).world.task.None?
  {
    var m := RecreateScenario(spec);
    assert m[..3][..2] == m[..2] && m[..2][..1] == m[..1] && m[..1][..0] == [];
    assert Run(cfg, g, m[..1]) == Next(cfg, g, m[0]);
    assert Run(cfg, g, m[..2]) == Next(cfg, Run(cfg, g, m[..1]), m[1]);
    assert Run(cfg, g, m[..3]) == Next(cfg, Run(cfg, g, m[..2]), m[2]);
  }

  // ------------------------------------------------------------------- timed runs

  lemma {:induction false} EnvRunOk(cfg: TaskConfig, w: World, l: Local, steps: seq<EnvStep>)
    requires Ok(cfg, w, l)
    ensures Ok(cfg, EnvRun(w, steps), l)
    decreases |steps|
  {
    if steps != [] {
      EnvOk(cfg, l, w, steps[0]);
      EnvRunOk(cfg, EnvApply(w, steps[0]), l, steps[1..]);
    }
  }

  predicate Gone(w: World, u: Objects.Uid) {
    w.task.None? || w.task.value.uid != u
  }

  predicate Ticking(w: World, u: Objects.Uid, expiry: int) {
    w.task.Some? && w.task.value.uid == u && w.task.value.status.expiry == Some(expiry)
  }

  predicate Watched(w: World, u: Objects.Uid, expiry: int) {
    u < w.nextUid && (Ticking(w, u, expiry) || Gone(w, u))
  }

  lemma {:induction false} EnvRunWatched(w: World, steps: seq<EnvStep>, u: Objects.Uid, expiry: int)
    requires Watched(w, u, expiry)
    ensures Watched(EnvRun(w, steps), u, expiry) && (Gone(w, u) ==> Gone(EnvRun(w, steps), u))
    decreases |steps|
  {
    if steps != [] {
      EnvRunWatched(EnvApply(w, steps[0]), steps[1..], u, expiry);
    }
  }

  ghost predicate AllDone(turns: nat -> Turn) {
    forall i: nat :: turns(i).env == [] && turns(i).outcome.Done?
  }

  /** The time by which the next reconcile is due. */
  function Deadline(l: Local, w: World): int {
    w.clock + (if l.Idle? && l.result.After? then l.result.delay else 0)
  }

  /** A reconcile that starts by deleting nothing leaves the expiry alone and asks to be run
      again within half a minute. */
  lemma {:induction false} DriveKeepsTicking(cfg: TaskConfig, l: Local, w: World, turns: nat -> Turn, i: nat,
                                             u: Objects.Uid, expiry: int)
    requires Ok(cfg, w, l) && Ticking(w, u, expiry) && u < w.nextUid && AllDone(turns)
    requires !l.Expiring? && (l == Begin ==> w.clock <= expiry)
    requires l.Idle? && l.result.After? ==> l.result.delay <= PERIOD
    ensures var (l', d, _) := Drive(cfg, l, w, turns, i);
      && Ok(cfg, d, l') && d.clock == w.clock && d.nextUid == w.nextUid
      && Ticking(d, u, expiry) && l'.Idle? && Deadline(l', d) <= w.clock + PERIOD
    decreases Stage(l)
  {
    if !l.Idle? {
      assert EnvRun(w, turns(i).env) == w;
      StepOk(cfg, l, w, turns(i).outcome);
      var (l', w') := Step(cfg, l, w, turns(i).outcome);
      DriveKeepsTicking(cfg, l', w', turns, i + 1, u, expiry);
    }
  }

  lemma ExpiredReconcile(cfg: TaskConfig, w: World, turns: nat -> Turn, u: Objects.Uid, expiry: int)
    requires Ticking(w, u, expiry) && w.clock > expiry && AllDone(turns)
    ensures var (l, d, _) := Drive(cfg, Begin, w, turns, 0); l == Idle(P.Stop) && d == w.(task := None)
  {
    assert EnvRun(w, turns(0).env) == w && EnvRun(w, turns(1).env) == w;
    var t := w.task.value;
    assert Drive(cfg, Begin, w, turns, 0) == Drive(cfg, Expiring(t), w, turns, 1);
    assert Drive(cfg, Expiring(t), w, turns, 1) == Drive(cfg, Idle(P.Stop), w.(task := None), turns, 2);
  }

  /** Between two instantaneous reconciles the environment moves, clock included. */
  datatype Wake = Wake(env: seq<EnvStep>, turns: nat -> Turn)

  /** No call fails, no reconcile reports an error, and every requeue is honoured. */
  ghost predicate Honoured(cfg: TaskConfig, w: World, deadline: int, wakes: seq<Wake>)
    decreases |wakes|
  {
    wakes != [] ==>
      var w1 := EnvRun(w, wakes[0].env);
      var (l, d, _) := Drive(cfg, Begin, w1, wakes[0].turns, 0);
      && w1.clock <= deadline
      && AllDone(wakes[0].turns) && l != Idle(P.Error)
      && Honoured(cfg, d, Deadline(l, d), wakes[1..])
  }

  /** Until incarnation u is gone, every reconcile happens by expiry plus half a minute, and
      the first one after expiry deletes it. */
  predicate DeletedInTime(cfg: TaskConfig, w: World, wakes: seq<Wake>, u: Objects.Uid, expiry: int)
    decreases |wakes|
  {
    wakes != [] ==>
      var w1 := EnvRun(w, wakes[0].env);
      var d := Drive(cfg, Begin, w1, wakes[0].turns, 0).1;
      Gone(w1, u)
      || (w1.clock <= expiry + PERIOD
          && (if w1.clock > expiry then d.task.None? else DeletedInTime(cfg, d, wakes[1..], u, expiry)))
  }

  lemma {:induction false} DeletedByDeadline(cfg: TaskConfig, w: World, deadline: int, wakes: seq<Wake>, u: Objects.Uid,
                                             expiry: int)
    requires Ok(cfg, w, Begin) && Watched(w, u, expiry)
    requires Ticking(w, u, expiry) ==> deadline <= expiry + PERIOD
    requires Honoured(cfg, w, deadline, wakes)
    ensures DeletedInTime(cfg, w, wakes, u, expiry)
    decreases |wakes|
  {
    if wakes != [] {
      var w1, turns := EnvRun(w, wakes[0].env), wakes[0].turns;
      EnvRunOk(cfg, w, Begin, wakes[0].env);
      EnvRunWatched(w, wakes[0].env, u, expiry);
      if Ticking(w1, u, expiry) {
        if w1.clock > expiry {
          ExpiredReconcile(cfg, w1, turns, u, expiry);
        } else {
          DriveKeepsTicking(cfg, Begin, w1, turns, 0, u, expiry);
          var (l, d, _) := Drive(cfg, Begin, w1, turns, 0);
          DeletedByDeadline(cfg, d, Deadline(l, d), wakes[1..], u, expiry);
        }
      }
    }
  }

  /** From any state a run can reach, if from then on no call fails, no reconcile reports an
      error and requeues are honoured, a task is reconciled no later than half a minute after
      its expiry, and the first reconcile after the expiry deletes it. */
  lemma ExpiryWithinHalfAMinute(cfg: TaskConfig, moves: seq<Move>, wakes: seq<Wake>)
    ensures var w := Run(cfg, START, moves).world;
      w.task.Some? && w.task.value.status.expiry.Some?
      && Honoured(cfg, w, w.task.value.status.expiry.value + PERIOD, wakes)
      ==> DeletedInTime(cfg, w, wakes, w.task.value.uid, w.task.value.status.expiry.value)
  {
    RunOk(cfg, moves);
    var w := Run(cfg, START, moves).world;
    if w.task.Some? && w.task.value.status.expiry.Some? {
      var expiry := w.task.value.status.expiry.value;
      if Honoured(cfg, w, expiry + PERIOD, wakes) {
        DeletedByDeadline(cfg, w, expiry + PERIOD, wakes, w.task.value.uid, expiry);
      }
    }
  }

  /** The first reconcile of a task only starts its time: the expiry is the parsed duration
      from now in whole seconds, and now when it does not parse. */
  lemma InitialReconcile(cfg: TaskConfig, w: World, turns: nat -> Turn)
    requires AllDone(turns) && TaskOk(cfg, w) && w.task.Some? && w.task.value.status.phase == Unset
    ensures var (l, d, _) := Drive(cfg, Begin, w, turns, 0);
      && l == Idle(P.After(0)) && Ok(cfg, d, l) && d.nextUid == w.nextUid && d.clock == w.clock
      && Ticking(d, w.task.value.uid, StatusSync.WholeSeconds(w.clock + Duration(cfg, w.task.value.spec)))
      && (cfg.parseDuration(w.task.value.spec.duration) == None
          ==> d.task.value.status.expiry == Some(StatusSync.WholeSeconds(w.clock)))
      && (forall t :: cfg.parseDuration(w.task.value.spec.duration) == Some(t)
            ==> d.task.value.status.expiry == Some(StatusSync.WholeSeconds(w.clock + t)))
      && d == w.(task := d.task) && d.task.value.spec == w.task.value.spec && d.task.value.status.phase == Pending
  {
    assert EnvRun(w, turns(0).env) == w && EnvRun(w, turns(1).env) == w;
    var t := Initial(cfg, w.task.value, w.clock);
    var (l2, w2) := Step(cfg, Initializing(t), w, turns(1).outcome);
    assert Drive(cfg, Begin, w, turns, 0) == Drive(cfg, Initializing(t), w, turns, 1);
    assert Drive(cfg, Initializing(t), w, turns, 1) == Drive(cfg, l2, w2, turns, 2);
  }

  /** A task's whole life: from the reconcile that initializes it, whatever its admitted
      duration, to its deletion no later than half a minute after the expiry. */
  lemma LifetimeBounded(cfg: TaskConfig, moves: seq<Move>, turns: nat -> Turn, wakes: seq<Wake>)
    requires var w := Run(cfg, START, moves).world;
      && AllDone(turns) && w.task.Some? && w.task.value.status.phase == Unset && Duration(cfg, w.task.value.spec) >= 0
      && var (l, d, _) := Drive(cfg, Begin, w, turns, 0);
         Honoured(cfg, d, Deadline(l, d), wakes)
    ensures var w := Run(cfg, START, moves).world;
      var d := Drive(cfg, Begin, w, turns, 0).1;
      DeletedInTime(cfg, d, wakes, w.task.value.uid,
                    StatusSync.WholeSeconds(w.clock + Duration(cfg, w.task.value.spec)))
  {
    RunOk(cfg, moves);
    var w := Run(cfg, START, moves).world;
    var (l, d, _) := Drive(cfg, Begin, w, turns, 0);
    InitialReconcile(cfg, w, turns);
    DeletedByDeadline(cfg, d, Deadline(l, d), wakes, w.task.value.uid,
                      StatusSync.WholeSeconds(w.clock + Duration(cfg, w.task.value.spec)));
  }

  // ------------------------------------------------- what one undisturbed reconcile does

  lemma DriveStep(cfg: TaskConfig, l: Local, w: World, turns: nat -> Turn, i: nat)
    requires AllDone(turns)
    ensures l.Idle? ==> Drive(cfg, l, w, turns, i) == (l, w, i)
    ensures !l.Idle? ==>
      var (l', w') := Step(cfg, l, w, turns(i).outcome);
      Drive(cfg, l, w, turns, i) == Drive(cfg, l', w', turns, i + 1)
  {
    assert EnvRun(w, turns(i).env) == w;
  }

  predicate IsReady(w: World) {
    w.pod.Some? && PodReady(w.pod.value)
  }

  /** The stored phase is the pod's readiness, and a task that had it already is not written. */
  predicate Reported(w: World, d: World)
    requires w.task.Some? && d.task.Some?
  {
    var phase := if IsReady(w) then Ready else Provisioning;
    d.task.value.status.phase == phase && (w.task.value.status.phase == phase ==> d.task == w.task)
  }

  /** The phase is reported; everything else is as in w. */
  predicate Tracked(l: Local, w: World, d: World) {
    && l == Idle(P.After(PERIOD))
    && w.task.Some? && d.task.Some? && d == w.(task := d.task) && d.task.value.uid == w.task.value.uid
    && Reported(w, d)
  }

  lemma CheckTracks(cfg: TaskConfig, t: Task, w: World, turns: nat -> Turn, i: nat)
    requires AllDone(turns) && w.task == Some(t)
    ensures var (l, d, _) := Drive(cfg, CheckingPod(t), w, turns, i); Tracked(l, w, d)
  {
    var (l1, w1) := Step(cfg, CheckingPod(t), w, turns(i).outcome);
    DriveStep(cfg, CheckingPod(t), w, turns, i);
    DriveStep(cfg, l1, w1, turns, i + 1);
    if !l1.Idle? {
      var (l2, w2) := Step(cfg, l1, w1, turns(i + 1).outcome);
      DriveStep(cfg, l2, w2, turns, i + 2);
    }
  }

  lemma FailureReported(cfg: TaskConfig, t: Task, w: World, turns: nat -> Turn, i: nat)
    requires AllDone(turns) && w.task.Some? && Current(w, t) && t.status.phase == Failed
    ensures var (l, d, _) := Drive(cfg, ReportingFailure(t), w, turns, i);
      && l == Idle(P.Error) && d.task.Some? && d.task.value.uid == t.uid
      && d.task.value.status.phase == Failed && d.task.value.status.message == t.status.message
  {
    var (l1, w1) := Step(cfg, ReportingFailure(t), w, turns(i).outcome);
    DriveStep(cfg, ReportingFailure(t), w, turns, i);
    DriveStep(cfg, l1, w1, turns, i + 1);
  }

  predicate Free(w: World) {
    && (w.pod.Some? ==> Objects.Claimable(w.pod.value.owner))
    && (w.service.Some? ==> Objects.Claimable(w.service.value.owner))
    && (w.policy.Some? ==> Objects.Claimable(w.policy.value.owner))
  }

  /** The first object, in the order of the calls, that belongs to somebody else. */
  function FirstTaken(w: World): Resource
    requires !Free(w)
  {
    if w.pod.Some? && !Objects.Claimable(w.pod.value.owner) then ThePod
    else if w.service.Some? && !Objects.Claimable(w.service.value.owner) then TheService
    else ThePolicy
  }

  /** The objects of a task put together: all its own, a pod that was there only re-labelled
      with the student, a new one made from the spec, and the service at the spec's port. */
  predicate Assembled(cfg: TaskConfig, spec: TaskSpec, uid: Objects.Uid, w: World, d: World) {
    && Complete(d, uid)
    && d.pod.value.studentId == spec.studentId
    && d.service.value.target == spec.port
    && (w.pod.Some? ==> d.pod.value == w.pod.value.(owner := Some(Objects.Own(uid)), studentId := spec.studentId))
    && (w.pod.None? ==>
          && d.pod.value.image == spec.image && d.pod.value.port == spec.port && d.pod.value.conditions == []
          && d.pod.value.flag == GenerateFlag(cfg, spec))
  }

  lemma EnsureTracks(cfg: TaskConfig, t: Task, w: World, turns: nat -> Turn, i: nat)
    requires AllDone(turns) && w.task == Some(t)
    ensures var (l, d, _) := Drive(cfg, EnsuringPod(t), w, turns, i);
      if Free(w) then
        && l == Idle(P.After(PERIOD)) && d.task.Some? && d.task.value.uid == t.uid
        && Assembled(cfg, t.spec, t.uid, w, d) && Reported(w, d)
      else
        && l == Idle(P.Error) && d.task.Some? && d.task.value.uid == t.uid && d.task.value.status.phase == Failed
        && d.task.value.status.message == EnsureFailed(FirstTaken(w))
  {
    var (l1, w1) := Step(cfg, EnsuringPod(t), w, turns(i).outcome);
    DriveStep(cfg, EnsuringPod(t), w, turns, i);
    if !l1.EnsuringService? {
      FailureReported(cfg, l1.t, w1, turns, i + 1);
      return;
    }
    var (l2, w2) := Step(cfg, l1, w1, turns(i + 1).outcome);
    DriveStep(cfg, l1, w1, turns, i + 1);
    if !l2.EnsuringPolicy? {
      FailureReported(cfg, l2.t, w2, turns, i + 2);
      return;
    }
    var (l3, w3) := Step(cfg, l2, w2, turns(i + 2).outcome);
    DriveStep(cfg, l2, w2, turns, i + 2);
    if l3.CheckingPod? {
      CheckTracks(cfg, t, w3, turns, i + 3);
    } else {
      FailureReported(cfg, l3.t, w3, turns, i + 3);
    }
  }

  /** An undisturbed reconcile of an initialized task before its expiry succeeds exactly when
      no object of its name belongs to an owner of another kind or name. Then all three
      objects are put together, with a pod that existed as it was, and the phase is the pod's
      readiness, written only if it was not that already; otherwise the phase is Failed and
      the message names the first such object. */
  lemma ReconcileTracksPod(cfg: TaskConfig, w: World, turns: nat -> Turn)
    requires AllDone(turns) && w.task.Some? && w.task.value.status.phase != Unset && !Expired(w.task.value, w.clock)
    ensures var (l, d, _) := Drive(cfg, Begin, w, turns, 0);
      var uid := w.task.value.uid;
      && d.task.Some? && d.task.value.uid == uid
      && (l == Idle(P.After(PERIOD)) <==> Free(w))
      && (if Free(w) then
            && Assembled(cfg, w.task.value.spec, uid, w, d)
            && Reported(w, d)
          else
            && d.task.value.status.phase == Failed
            && d.task.value.status.message == EnsureFailed(FirstTaken(w)))
  {
    var t := w.task.value;
    DriveStep(cfg, Begin, w, turns, 0);
    if t.status.phase == Pending {
      var (l1, w1) := Step(cfg, Received(cfg, t, w.clock), w, turns(1).outcome);
      DriveStep(cfg, Received(cfg, t, w.clock), w, turns, 1);
      EnsureTracks(cfg, l1.t, w1, turns, 2);
    } else {
      EnsureTracks(cfg, t, w, turns, 1);
    }
  }

  /** The flag in the pod is that of the current spec after an undisturbed successful
      reconcile exactly when there was no pod or its flag was already that one. */
  lemma FlagCurrentIff(cfg: TaskConfig, w: World, turns: nat -> Turn)
    requires AllDone(turns) && w.task.Some? && w.task.value.status.phase != Unset && !Expired(w.task.value, w.clock)
    requires Free(w)
    ensures var d, flag := Drive(cfg, Begin, w, turns, 0).1, GenerateFlag(cfg, w.task.value.spec);
      d.pod.Some? && (d.pod.value.flag == flag <==> w.pod.None? || w.pod.value.flag == flag)
  {
    ReconcileTracksPod(cfg, w, turns);
  }

  /** A task that is due for its pod: initialized, not expired, nothing of its name taken,
      and no pod there yet. */
  predicate Podless(w: World) {
    && w.task.Some? && w.task.value.status.phase != Unset && !Expired(w.task.value, w.clock)
    && Free(w) && w.pod.None?
  }

  /** The pods of two tasks, each made by an undisturbed reconcile, carry one flag exactly when
      the two show equally much of the digest of one text; for two specs of one task that is
      when both are global or both belong to one student. */
  lemma FlagsInPods(cfg: TaskConfig, w: World, turns: nat -> Turn, other: string, w2: World, turns2: nat -> Turn)
    requires AllDone(turns) && AllDone(turns2) && Podless(w) && Podless(w2)
    requires var a, b := w.task.value.spec, w2.task.value.spec;
      && Injective(cfg.render) && a.format == b.format
      && Separates(cfg, TextsOf(cfg.name, a, other, b), FlagSize(a))
    ensures var a, b := w.task.value.spec, w2.task.value.spec;
      var d, d2 := Drive(cfg, Begin, w, turns, 0).1, Drive(cfg.(name := other), Begin, w2, turns2, 0).1;
      && d.pod.Some? && d2.pod.Some?
      && (d.pod.value.flag == d2.pod.value.flag <==> FlagSize(a) == FlagSize(b) && SameText(cfg.name, a, other, b))
      && (cfg.name == other && a.length == b.length ==>
            (d.pod.value.flag == d2.pod.value.flag
             <==> (a.scope != "Personal" && b.scope != "Personal")
                  || (a.scope == "Personal" && b.scope == "Personal" && a.studentId == b.studentId)))
  {
    var a, b := w.task.value.spec, w2.task.value.spec;
    ReconcileTracksPod(cfg, w, turns);
    ReconcileTracksPod(cfg.(name := other), w2, turns2);
    FlagsAgreeIff(cfg, a, other, b);
    if cfg.name == other {
      assert cfg.(name := other) == cfg;
      if a.length == b.length {
        FlagsOfOneTask(cfg, a, b);
      }
    }
  }

  /** Deleted and created again before the collector comes by, a task adopts the objects of
      its predecessor: two undisturbed reconciles later it owns the old pod, with the old
      flag in it, and reports that pod's readiness as its own. */
  lemma PredecessorAdopted(cfg: TaskConfig, w: World, spec: TaskSpec, first: nat -> Turn, second: nat -> Turn)
    requires AllDone(first) && AllDone(second) && TaskOk(cfg, w) && Duration(cfg, spec) >= Objects.SECOND
    requires w.task.Some? && HasPod(w, w.task.value.uid) && Free(w)
    ensures var w1 := EnvApply(EnvApply(w, UserDeletes), UserCreates(spec));
      var w2 := Drive(cfg, Begin, w1, first, 0).1;
      var (l, d, _) := Drive(cfg, Begin, w2, second, 0);
      && w1.task == Some(Task(w.nextUid, 0, spec, NEW_STATUS)) && w.nextUid != w.task.value.uid
      && l == Idle(P.After(PERIOD)) && d.task.Some? && d.task.value.uid == w.nextUid && Complete(d, w.nextUid)
      && d.pod.value.flag == w.pod.value.flag
      && d.task.value.status.phase == (if IsReady(w) then Ready else Provisioning)
  {
    var w1 := EnvApply(EnvApply(w, UserDeletes), UserCreates(spec));
    InitialReconcile(cfg, w1, first);
    var w2 := Drive(cfg, Begin, w1, first, 0).1;
    ReconcileTracksPod(cfg, w2, second);
  }
}
