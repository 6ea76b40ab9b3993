/** The CTFTask reconciler as the code runs it, proved to do what its big step says. */
module CtfTaskReconciler {
  import opened Common
  import P = Protocol
  import opened CtfTask

  /** The store behind the client; turn i says what happens around the i-th call. */
  class TaskServer {
    var world: World
    var calls: nat
    const cfg: TaskConfig
    const turns: nat -> Turn

    constructor (cfg: TaskConfig, world: World, turns: nat -> Turn)
      ensures this.cfg == cfg && this.world == world && this.turns == turns && calls == 0
    {
      this.cfg, this.world, this.turns, this.calls := cfg, world, turns, 0;
    }

    function Ahead(): World
      reads this
    {
      EnvRun(world, turns(calls).env)
    }

    function Fate(): P.Outcome
      reads this
    {
      turns(calls).outcome
    }

    /** The rest of a reconcile that stands at l. */
    function Rest(l: Local): (Local, World, nat)
      reads this
    {
      Drive(cfg, l, world, turns, calls)
    }

    method Get() returns (r: P.Reply<Task>)
      modifies this
      ensures (r, world, calls) == (GetTask(old(Ahead()), old(Fate())), old(Ahead()), old(calls) + 1)
    {
      r := GetTask(Ahead(), Fate());
      world, calls := Ahead(), calls + 1;
    }

    method WriteStatus(t: Task) returns (r: P.Reply<Task>)
      modifies this
      ensures calls == old(calls) + 1 && (world, r) == UpdateTaskStatus(old(Ahead()), t, old(Fate()))
    {
      var (w, reply) := UpdateTaskStatus(Ahead(), t, Fate());
      world, calls, r := w, calls + 1, reply;
    }

    method Delete() returns (ok: bool)
      modifies this
      ensures calls == old(calls) + 1 && (world, ok) == DeleteTask(old(Ahead()), old(Fate()))
    {
      var (w, done) := DeleteTask(Ahead(), Fate());
      world, calls, ok := w, calls + 1, done;
    }

    method EnsurePod(t: Task, flag: string) returns (ok: bool)
      modifies this
      ensures calls == old(calls) + 1 && (world, ok) == PutPod(old(Ahead()), t, flag, old(Fate()))
    {
      var (w, done) := PutPod(Ahead(), t, flag, Fate());
      world, calls, ok := w, calls + 1, done;
    }

    method EnsureService(t: Task) returns (ok: bool)
      modifies this
      ensures calls == old(calls) + 1 && (world, ok) == PutService(old(Ahead()), t, old(Fate()))
    {
      var (w, done) := PutService(Ahead(), t, Fate());
      world, calls, ok := w, calls + 1, done;
    }

    method EnsureNetworkPolicy(t: Task) returns (ok: bool)
      modifies this
      ensures calls == old(calls) + 1 && (world, ok) == PutPolicy(old(Ahead()), t, old(Fate()))
    {
      var (w, done) := PutPolicy(Ahead(), t, Fate());
      world, calls, ok := w, calls + 1, done;
    }

    method FetchPod() returns (r: P.Reply<TaskPod>)
      modifies this
      ensures (r, world, calls) == (GetPod(old(Ahead()), old(Fate())), old(Ahead()), old(calls) + 1)
    {
      r := GetPod(Ahead(), Fate());
      world, calls := Ahead(), calls + 1;
    }
  }

  /** The decoded task, whose status the reconciler edits before it writes it. */
  class TaskObject {
    var read: Task
    var phase: TaskPhase
    var message: TaskMessage
    var endpoint: string
    var expiry: Option<int>

    constructor (t: Task)
      ensures Value() == t
    {
      read, phase, message, endpoint, expiry := t, t.status.phase, t.status.message, t.status.endpoint, t.status.expiry;
    }

    function Value(): Task
      reads this
    {
      read.(status := TaskStatus(phase, message, endpoint, expiry))
    }

    /** A successful write decodes the server's answer into the object. */
    method Load(t: Task)
      modifies this
      ensures Value() == t
    {
      read, phase, message, endpoint, expiry := t, t.status.phase, t.status.message, t.status.endpoint, t.status.expiry;
    }
  }

  /** Scans the reported conditions for a true readiness condition. */
  method IsPodReady(pod: TaskPod) returns (ready: bool)
    ensures ready <==> exists i :: 0 <= i < |pod.conditions| && pod.conditions[i] == Condition("Ready", "True")
  {
    for i := 0 to |pod.conditions|
      invariant forall j :: 0 <= j < i ==> pod.conditions[j] != Condition("Ready", "True")
    {
      if pod.conditions[i].kind == "Ready" && pod.conditions[i].status == "True" {
        return true;
      }
    }
    return false;
  }

  lemma Unfold(cfg: TaskConfig, l: Local, w: World, turns: nat -> Turn, i: nat)
    ensures l.Idle? ==> Drive(cfg, l, w, turns, i) == (l, w, i)
    ensures !l.Idle? ==>
      var (l', w') := Step(cfg, l, EnvRun(w, turns(i).env), turns(i).outcome);
      Drive(cfg, l, w, turns, i) == Drive(cfg, l', w', turns, i + 1)
  {
  }

  lemma LastCall(cfg: TaskConfig, l: Local, w: World, turns: nat -> Turn, i: nat)
    requires l.Expiring? || l.Initializing? || l.ReportingFailure? || l.WritingResult?
    ensures var (l', w') := Step(cfg, l, EnvRun(w, turns(i).env), turns(i).outcome);
      Drive(cfg, l, w, turns, i) == (l', w', i + 1)
  {
    var (l', w') := Step(cfg, l, EnvRun(w, turns(i).env), turns(i).outcome);
    Unfold(cfg, l, w, turns, i);
    Unfold(cfg, l', w', turns, i + 1);
  }

  /** Pod, service and network policy in turn, up to the first that fails. */
  method EnsureResources(api: TaskServer, t: Task, flag: string) returns (failed: Option<Resource>)
    requires flag == GenerateFlag(api.cfg, t.spec)
    modifies api
    ensures old(api.Rest(EnsuringPod(t)))
         == api.Rest(if failed.None? then CheckingPod(t) else ReportingFailure(Failing(t, failed.value)))
  {
    Unfold(api.cfg, EnsuringPod(t), api.world, api.turns, api.calls);
    var ok := api.EnsurePod(t, flag);
    if !ok {
      return Some(ThePod);
    }
    Unfold(api.cfg, EnsuringService(t), api.world, api.turns, api.calls);
    ok := api.EnsureService(t);
    if !ok {
      return Some(TheService);
    }
    Unfold(api.cfg, EnsuringPolicy(t), api.world, api.turns, api.calls);
    ok := api.EnsureNetworkPolicy(t);
    return if ok then None else Some(ThePolicy);
  }

  method Initialize(api: TaskServer, task: TaskObject, now: int) returns (res: P.Result)
    modifies api, task
    ensures old(api.Rest(Initializing(Initial(api.cfg, task.Value(), now)))) == (Idle(res), api.world, api.calls)
  {
    LastCall(api.cfg, Initializing(Initial(api.cfg, task.Value(), now)), api.world, api.turns, api.calls);
    var duration := 0;
    if api.cfg.parseDuration(task.read.spec.duration).Some? {
      duration := api.cfg.parseDuration(task.read.spec.duration).value;
    }
    task.expiry := Some(now + duration);
    task.phase := Pending;
    task.message := Creating;
    var reply := api.WriteStatus(task.Value());
    return if reply.Got? then P.After(0) else P.Error;
  }

  method ReportFailure(api: TaskServer, task: TaskObject, what: Resource) returns (res: P.Result)
    modifies api, task
    ensures old(api.Rest(ReportingFailure(Failing(task.Value(), what)))) == (Idle(res), api.world, api.calls)
  {
    LastCall(api.cfg, ReportingFailure(Failing(task.Value(), what)), api.world, api.turns, api.calls);
    task.phase := Failed;
    task.message := EnsureFailed(what);
    var ignored := api.WriteStatus(task.Value());
    return P.Error;
  }

  /** Turns readiness into a phase, and writes the status only when the phase moved. */
  method JudgePod(api: TaskServer, task: TaskObject) returns (res: P.Result)
    modifies api, task
    ensures old(api.Rest(CheckingPod(task.Value()))) == (Idle(res), api.world, api.calls)
  {
    ghost var t := task.Value();
    Unfold(api.cfg, CheckingPod(t), api.world, api.turns, api.calls);
    var pod := api.FetchPod();
    if pod.Fault? {
      Unfold(api.cfg, Idle(P.Error), api.world, api.turns, api.calls);
      return P.Error;
    }
    var ready := false;
    if pod.Got? {
      ready := IsPodReady(pod.value);
    }
    var oldPhase := task.phase;
    if ready {
      task.phase := Ready;
      task.endpoint := Url(api.cfg);
      task.message := AllGood;
    } else {
      task.phase := Provisioning;
      task.message := Waiting;
    }
    assert task.Value() == Judged(api.cfg, t, ready);
    if oldPhase != task.phase {
      LastCall(api.cfg, WritingResult(task.Value()), api.world, api.turns, api.calls);
      var reply := api.WriteStatus(task.Value());
      return if reply.Got? then P.After(PERIOD) else P.Error;
    }
    Unfold(api.cfg, Idle(P.After(PERIOD)), api.world, api.turns, api.calls);
    return P.After(PERIOD);
  }

  /** Resources, then readiness. */
  method Synchronize(api: TaskServer, task: TaskObject) returns (res: P.Result)
    modifies api, task
    ensures old(api.Rest(EnsuringPod(task.Value()))) == (Idle(res), api.world, api.calls)
  {
    var failed := EnsureResources(api, task.Value(), GenerateFlag(api.cfg, task.read.spec));
    if failed.Some? {
      res := ReportFailure(api, task, failed.value);
    } else {
      res := JudgePod(api, task);
    }
  }

  /** One reconcile: from any store, whatever happens around its calls, it makes the calls,
      leaves the store and returns the result of the protocol. */
  method Reconcile(api: TaskServer) returns (res: P.Result)
    modifies api
    ensures (Idle(res), api.world, api.calls) == old(api.Rest(Begin))
  {
    Unfold(api.cfg, Begin, api.world, api.turns, api.calls);
    var found := api.Get();
    if !found.Got? {
      res := if found.Missing? then P.Stop else P.Error;
      Unfold(api.cfg, Idle(res), api.world, api.turns, api.calls);
      return;
    }
    var task := new TaskObject(found.value);
    var now := api.world.clock;
    if task.expiry.Some? && now > task.expiry.value {
      LastCall(api.cfg, Expiring(found.value), api.world, api.turns, api.calls);
      var ok := api.Delete();
      return if ok then P.Stop else P.Error;
    }
    if task.phase == Unset {
      res := Initialize(api, task, now);
      return;
    }
    if task.phase == Pending {
      task.phase := Provisioning;
      Unfold(api.cfg, Starting(task.Value()), api.world, api.turns, api.calls);
      var reply := api.WriteStatus(task.Value());
      if !reply.Got? {
        Unfold(api.cfg, Idle(P.Error), api.world, api.turns, api.calls);
        return P.Error;
      }
      task.Load(reply.value);
    }
    res := Synchronize(api, task);
  }
}
