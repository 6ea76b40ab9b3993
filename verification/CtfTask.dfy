/**
 * The CTFTask reconciler: one namespaced task, its pod, service and network policy, and
 * the calls of a reconcile. Unlike a session, a task has no finalizer.
 */
module CtfTask {
  import opened Common
  import Objects
  import StatusSync
  import P = Protocol

  // -------------------------------------------------------------------------- data

  /** Unset is the empty phase of a new task; the controller writes the other four. */
  datatype TaskPhase = Unset | Pending | Provisioning | Ready | Failed

  datatype Resource = ThePod | TheService | ThePolicy

  datatype TaskMessage = NoMessage | Creating | Waiting | AllGood | EnsureFailed(what: Resource)

  datatype TaskStatus = TaskStatus(phase: TaskPhase, message: TaskMessage, endpoint: string, expiry: Option<int>)

  /** Zero stands for a length that was left out. */
  type FlagLength = n: int | n == 0 || 8 <= n <= 64

  datatype TaskSpec = TaskSpec(image: string, port: int, studentId: string, duration: string,
                               format: string, scope: string, length: FlagLength)

  datatype Task = Task(uid: Objects.Uid, version: nat, spec: TaskSpec, status: TaskStatus)

  datatype Condition = Condition(kind: string, status: string)

  datatype TaskPod = TaskPod(owner: Option<Objects.OwnerRef>, studentId: string, image: string, port: int, flag: string,
                             conditions: seq<Condition>)

  datatype TaskService = TaskService(owner: Option<Objects.OwnerRef>, target: int)

  datatype TaskPolicy = TaskPolicy(owner: Option<Objects.OwnerRef>)

  /** Everything under one namespaced task name. */
  datatype World = World(task: Option<Task>, pod: Option<TaskPod>, service: Option<TaskService>,
                         policy: Option<TaskPolicy>, clock: int, nextUid: Objects.Uid)

  type Digest = s: string | |s| == 64 witness seq(64, _ => '0')

  /** `digest` is the keyed hash in hexadecimal, `render` fills the flag format. */
  datatype TaskConfig = TaskConfig(name: string, salt: string, digest: (string, string) -> Digest,
                                   render: (string, string) -> string, parseDuration: string -> Option<int>)

  // ------------------------------------------------------------------------- flags

  function FlagData(name: string, spec: TaskSpec): string {
    if spec.scope == "Personal" then name + "-" + spec.studentId else name
  }

  /** Total, because an admitted length never exceeds the digest. */
  function GenerateFlag(cfg: TaskConfig, spec: TaskSpec): string {
    var length := if spec.length == 0 then 12 else spec.length;
    cfg.render(spec.format, cfg.digest(cfg.salt, FlagData(cfg.name, spec))[..length])
  }

  /** When two tasks hash one text: two personal ones if name and student are the same or one
      pair extends the other, two global ones if they have one name, and a global one whose
      name is the other's name, a dash and the other's student. */
  predicate SameText(name: string, a: TaskSpec, other: string, b: TaskSpec) {
    if a.scope == "Personal" && b.scope == "Personal" then
      || (name == other && a.studentId == b.studentId)
      || Extends(name, a.studentId, other, b.studentId)
      || Extends(other, b.studentId, name, a.studentId)
    else if a.scope == "Personal" then other == name + "-" + a.studentId
    else if b.scope == "Personal" then name == other + "-" + b.studentId
    else name == other
  }

  lemma FlagDataCollisions(name: string, a: TaskSpec, other: string, b: TaskSpec)
    ensures FlagData(name, a) == FlagData(other, b) <==> SameText(name, a, other, b)
  {
    JoinCollisions(name, a.studentId, other, b.studentId);
  }

  /** Personal flags of one task hash different texts exactly for different students. */
  lemma PersonalFlagData(name: string, a: TaskSpec, b: TaskSpec)
    requires a.scope == "Personal" && b.scope == "Personal"
    ensures FlagData(name, a) == FlagData(name, b) <==> a.studentId == b.studentId
  {
    FlagDataCollisions(name, a, name, b);
  }

  /** Across tasks the text is ambiguous, as the separator may be part of either name. */
  lemma FlagDataClash(a: TaskSpec, b: TaskSpec)
    requires a.scope == "Personal" && b.scope == "Personal" && a.studentId == "b-c" && b.studentId == "c"
    ensures FlagData("a", a) == FlagData("a-b", b)
  {
    assert Extends("a-b", "c", "a", "b-c");
    FlagDataCollisions("a", a, "a-b", b);
  }

  /** How much of the digest a flag shows. */
  function FlagSize(spec: TaskSpec): (n: nat)
    ensures n == (if spec.length == 0 then 12 else spec.length) <= 64
  {
    if spec.length == 0 then 12 else spec.length
  }

  /** The flag is the format filled with that many characters from the start of the digest of
      the task's name, followed by a dash and the student for a personal one. */
  lemma FlagIs(cfg: TaskConfig, spec: TaskSpec)
    ensures spec.scope == "Personal" ==>
      GenerateFlag(cfg, spec)
      == cfg.render(spec.format, cfg.digest(cfg.salt, cfg.name + "-" + spec.studentId)[..FlagSize(spec)])
    ensures spec.scope != "Personal" ==>
      GenerateFlag(cfg, spec) == cfg.render(spec.format, cfg.digest(cfg.salt, cfg.name)[..FlagSize(spec)])
  {
  }

  /** Filling the format keeps different texts apart. */
  ghost predicate Injective(render: (string, string) -> string) {
    forall format, x, y :: render(format, x) == render(format, y) ==> x == y
  }

  /** The digests of these texts differ within the first n characters. */
  ghost predicate Separates(cfg: TaskConfig, texts: set<string>, n: nat)
    requires n <= 64
  {
    forall x, y :: x in texts && y in texts && cfg.digest(cfg.salt, x)[..n] == cfg.digest(cfg.salt, y)[..n] ==> x == y
  }

  /** The texts two tasks may hash, whatever their scopes. */
  function TextsOf(name: string, a: TaskSpec, other: string, b: TaskSpec): set<string> {
    {name, name + "-" + a.studentId, other, other + "-" + b.studentId}
  }

  /** Where the digest keeps the texts at hand apart, two tasks with one format have one flag
      exactly when they show equally much of the digest of one text. */
  lemma FlagsAgreeIff(cfg: TaskConfig, a: TaskSpec, other: string, b: TaskSpec)
    requires Injective(cfg.render) && a.format == b.format
    requires Separates(cfg, TextsOf(cfg.name, a, other, b), FlagSize(a))
    ensures GenerateFlag(cfg, a) == GenerateFlag(cfg.(name := other), b)
      <==> FlagSize(a) == FlagSize(b) && SameText(cfg.name, a, other, b)
  {
    var x := if a.scope == "Personal" then cfg.name + "-" + a.studentId else cfg.name;
    var y := if b.scope == "Personal" then other + "-" + b.studentId else other;
    FlagIs(cfg, a);
    FlagIs(cfg.(name := other), b);
    FlagDataCollisions(cfg.name, a, other, b);
    assert x in TextsOf(cfg.name, a, other, b) && y in TextsOf(cfg.name, a, other, b);
    var p, q := cfg.digest(cfg.salt, x)[..FlagSize(a)], cfg.digest(cfg.salt, y)[..FlagSize(b)];
    assert |p| == FlagSize(a) && |q| == FlagSize(b);
  }

  /** So two specs of one task have one flag exactly when both are global, or both are personal
      with one student. */
  lemma FlagsOfOneTask(cfg: TaskConfig, a: TaskSpec, b: TaskSpec)
    requires Injective(cfg.render) && a.format == b.format && a.length == b.length
    requires Separates(cfg, TextsOf(cfg.name, a, cfg.name, b), FlagSize(a))
    ensures GenerateFlag(cfg, a) == GenerateFlag(cfg, b)
      <==> (a.scope != "Personal" && b.scope != "Personal")
           || (a.scope == "Personal" && b.scope == "Personal" && a.studentId == b.studentId)
  {
    FlagsAgreeIff(cfg, a, cfg.name, b);
    FlagDataCollisions(cfg.name, a, cfg.name, b);
    if a.scope == "Personal" && b.scope == "Personal" {
      PersonalFlagData(cfg.name, a, b);
    }
  }

  // ------------------------------------------------------------------ server calls

  function GetTask(w: World, o: P.Outcome): P.Reply<Task> {
    if !o.Done? then P.Fault else if w.task.Some? then P.Got(w.task.value) else P.Missing
  }

  predicate Current(w: World, t: Task) {
    w.task.Some? && w.task.value.uid == t.uid && w.task.value.version == t.version
  }

  function UpdateTaskStatus(w: World, t: Task, o: P.Outcome): (World, P.Reply<Task>) {
    if o.Refused? || !Current(w, t) then (w, P.Fault)
    else
      var next := w.task.value.(status := t.status.(expiry := StatusSync.StoredTime(t.status.expiry)),
                                version := w.task.value.version + 1);
      (w.(task := Some(next)), if o.Done? then P.Got(next) else P.Fault)
  }

  /** By name: whatever incarnation is there goes away. */
  function DeleteTask(w: World, o: P.Outcome): (World, bool) {
    if o.Refused? || w.task.None? then (w, false) else (w.(task := None), o.Done?)
  }

  /** The container is only written on creation, so an existing pod keeps its flag. */
  function PutPod(w: World, t: Task, flag: string, o: P.Outcome): (World, bool) {
    if o.Refused? || (w.pod.Some? && !Objects.Claimable(w.pod.value.owner)) then (w, false)
    else
      var pod := if w.pod.Some? then w.pod.value.(owner := Some(Objects.Own(t.uid)), studentId := t.spec.studentId)
                 else TaskPod(Some(Objects.Own(t.uid)), t.spec.studentId, t.spec.image, t.spec.port, flag, []);
      (w.(pod := Some(pod)), o.Done?)
  }

  function PutService(w: World, t: Task, o: P.Outcome): (World, bool) {
    if o.Refused? || (w.service.Some? && !Objects.Claimable(w.service.value.owner)) then (w, false)
    else (w.(service := Some(TaskService(Some(Objects.Own(t.uid)), t.spec.port))), o.Done?)
  }

  function PutPolicy(w: World, t: Task, o: P.Outcome): (World, bool) {
    if o.Refused? || (w.policy.Some? && !Objects.Claimable(w.policy.value.owner)) then (w, false)
    else (w.(policy := Some(TaskPolicy(Some(Objects.Own(t.uid))))), o.Done?)
  }

  function GetPod(w: World, o: P.Outcome): P.Reply<TaskPod> {
    if !o.Done? then P.Fault else if w.pod.Some? then P.Got(w.pod.value) else P.Missing
  }

  // ---------------------------------------------------------------- the reconciler

  datatype Local =
    | Idle(result: P.Result)
    | Begin
    | Expiring(t: Task)
    | Initializing(t: Task)
    | Starting(t: Task)
    | EnsuringPod(t: Task)
    | EnsuringService(t: Task)
    | EnsuringPolicy(t: Task)
    | ReportingFailure(t: Task)
    | CheckingPod(t: Task)
    | WritingResult(t: Task)

  predicate Expired(t: Task, now: int) {
    t.status.expiry.Some? && now > t.status.expiry.value
  }

  /** A duration that does not parse counts as zero. */
  function Duration(cfg: TaskConfig, spec: TaskSpec): int {
    match cfg.parseDuration(spec.duration)
    case None => 0
    case Some(d) => d
  }

  predicate PodReady(pod: TaskPod) {
    exists i :: 0 <= i < |pod.conditions| && pod.conditions[i] == Condition("Ready", "True")
  }

  function Url(cfg: TaskConfig): string {
    "https://" + cfg.name + ".labs.ctf.school"
  }

  /** Tasks of different names have different addresses. */
  lemma UrlsDistinct(cfg: TaskConfig, a: string, b: string)
    ensures Url(cfg.(name := a)) == Url(cfg.(name := b)) <==> a == b
  {
    SuffixCancels("https://" + a, "https://" + b, ".labs.ctf.school");
    PrefixCancels("https://", a, b);
  }

  function Initial(cfg: TaskConfig, t: Task, now: int): Task {
    t.(status := t.status.(expiry := Some(now + Duration(cfg, t.spec)), phase := Pending, message := Creating))
  }

  function Failing(t: Task, what: Resource): Task {
    t.(status := t.status.(phase := Failed, message := EnsureFailed(what)))
  }

  function Judged(cfg: TaskConfig, t: Task, ready: bool): Task {
    if ready then t.(status := t.status.(phase := Ready, endpoint := Url(cfg), message := AllGood))
    else t.(status := t.status.(phase := Provisioning, message := Waiting))
  }

  function Received(cfg: TaskConfig, t: Task, now: int): Local {
    if Expired(t, now) then Expiring(t)
    else if t.status.phase == Unset then Initializing(Initial(cfg, t, now))
    else if t.status.phase == Pending then Starting(t.(status := t.status.(phase := Provisioning)))
    else EnsuringPod(t)
  }

  const PERIOD := 30 * Objects.SECOND

  function Checked(cfg: TaskConfig, t: Task, ready: bool): Local {
    if Judged(cfg, t, ready).status.phase == t.status.phase then Idle(P.After(PERIOD))
    else WritingResult(Judged(cfg, t, ready))
  }

  function Step(cfg: TaskConfig, l: Local, w: World, o: P.Outcome): (Local, World) {
    match l
    case Idle(_) => (l, w)
    case Begin =>
      (match GetTask(w, o)
       case Got(t) => Received(cfg, t, w.clock)
       case Missing => Idle(P.Stop)
       case Fault => Idle(P.Error), w)
    case Expiring(_) =>
      var (w', ok) := DeleteTask(w, o);
      (Idle(if ok then P.Stop else P.Error), w')
    case Initializing(t) =>
      var (w', r) := UpdateTaskStatus(w, t, o);
      (Idle(if r.Got? then P.After(0) else P.Error), w')
    case Starting(t) =>
      var (w', r) := UpdateTaskStatus(w, t, o);
      (if r.Got? then EnsuringPod(r.value) else Idle(P.Error), w')
    case EnsuringPod(t) =>
      var (w', ok) := PutPod(w, t, GenerateFlag(cfg, t.spec), o);
      (if ok then EnsuringService(t) else ReportingFailure(Failing(t, ThePod)), w')
    case EnsuringService(t) =>
      var (w', ok) := PutService(w, t, o);
      (if ok then EnsuringPolicy(t) else ReportingFailure(Failing(t, TheService)), w')
    case EnsuringPolicy(t) =>
      var (w', ok) := PutPolicy(w, t, o);
      (if ok then CheckingPod(t) else ReportingFailure(Failing(t, ThePolicy)), w')
    case ReportingFailure(t) =>
      (Idle(P.Error), UpdateTaskStatus(w, t, o).0)
    case CheckingPod(t) =>
      (match GetPod(w, o)
       case Got(pod) => Checked(cfg, t, PodReady(pod))
       case Missing => Checked(cfg, t, false)
       case Fault => Idle(P.Error), w)
    case WritingResult(t) =>
      var (w', r) := UpdateTaskStatus(w, t, o);
      (Idle(if r.Got? then P.After(PERIOD) else P.Error), w')
  }

  // --------------------------------------------------------------- the environment

  datatype EnvStep =
    | Tick(elapsed: nat)
    | UserCreates(spec: TaskSpec)
    | UserDeletes
    | UserEdits(spec: TaskSpec)
    | PodReports(conditions: seq<Condition>)
    | PodAppears(pod: TaskPod)
    | ServiceAppears(service: TaskService)
    | PolicyAppears(policy: TaskPolicy)
    | Collected(what: Resource)
    | Removed(what: Resource)

  const NEW_STATUS := TaskStatus(Unset, NoMessage, "", None)

  predicate Orphan(w: World, owner: Option<Objects.OwnerRef>) {
    owner.Some? && !(owner.value.Own? && w.task.Some? && w.task.value.uid == owner.value.uid)
  }

  /** What somebody else creates is unowned or owned by something else. */
  predicate ByOthers(owner: Option<Objects.OwnerRef>) {
    owner.None? || owner.value.Foreign?
  }

  function Without(w: World, what: Resource): World {
    match what
    case ThePod => w.(pod := None)
    case TheService => w.(service := None)
    case ThePolicy => w.(policy := None)
  }

  function OwnerOf(w: World, what: Resource): Option<Objects.OwnerRef> {
    match what
    case ThePod => if w.pod.Some? then w.pod.value.owner else None
    case TheService => if w.service.Some? then w.service.value.owner else None
    case ThePolicy => if w.policy.Some? then w.policy.value.owner else None
  }

  /** The garbage collector takes objects whose owner is gone; Removed is anybody else. */
  function EnvApply(w: World, e: EnvStep): World {
    match e
    case Tick(d) => w.(clock := w.clock + d)
    case UserCreates(spec) =>
      if w.task.Some? then w else w.(task := Some(Task(w.nextUid, 0, spec, NEW_STATUS)), nextUid := w.nextUid + 1)
    case UserDeletes => w.(task := None)
    case UserEdits(spec) =>
      if w.task.None? then w else w.(task := Some(w.task.value.(spec := spec, version := w.task.value.version + 1)))
    case PodReports(conditions) => if w.pod.None? then w else w.(pod := Some(w.pod.value.(conditions := conditions)))
    case PodAppears(pod) => if w.pod.None? && ByOthers(pod.owner) then w.(pod := Some(pod)) else w
    case ServiceAppears(service) =>
      if w.service.None? && ByOthers(service.owner) then w.(service := Some(service)) else w
    case PolicyAppears(policy) =>
      if w.policy.None? && ByOthers(policy.owner) then w.(policy := Some(policy)) else w
    case Collected(what) => if Orphan(w, OwnerOf(w, what)) then Without(w, what) else w
    case Removed(what) => Without(w, what)
  }

  function EnvRun(w: World, steps: seq<EnvStep>): World
    decreases |steps|
  {
    if steps == [] then w else EnvRun(EnvApply(w, steps[0]), steps[1..])
  }

  // ------------------------------------------------------------- the whole system

  datatype System = System(world: World, local: Local)

  datatype Move = Ctl(outcome: P.Outcome) | Crash | Env(step: EnvStep)

  const START := System(World(None, None, None, None, 0, 0), Idle(P.Stop))

  function Started(l: Local): Local {
    if l.Idle? then Begin else l
  }

  function Next(cfg: TaskConfig, g: System, move: Move): System {
    match move
    case Ctl(o) =>
      var (l, w) := Step(cfg, Started(g.local), g.world, o);
      System(w, l)
    case Crash => g.(local := Idle(P.Error))
    case Env(e) => g.(world := EnvApply(g.world, e))
  }

  function Run(cfg: TaskConfig, g: System, moves: seq<Move>): System {
    if moves == [] then g else Next(cfg, Run(cfg, g, moves[..|moves| - 1]), moves[|moves| - 1])
  }

  // -------------------------------------------------- one reconcile from start to end

  datatype Turn = Turn(env: seq<EnvStep>, outcome: P.Outcome)

  function Stage(l: Local): nat {
    match l
    case Begin => 8
    case Starting(_) => 7
    case EnsuringPod(_) => 6
    case EnsuringService(_) => 5
    case EnsuringPolicy(_) => 4
    case CheckingPod(_) => 3
    case WritingResult(_) => 2
    case ReportingFailure(_) => 2
    case Initializing(_) => 2
    case Expiring(_) => 2
    case Idle(_) => 0
  }

  function Drive(cfg: TaskConfig, l: Local, w: World, turns: nat -> Turn, i: nat): (Local, World, nat)
    decreases Stage(l)
  {
    if l.Idle? then (l, w, i)
    else
      var (l', w') := Step(cfg, l, EnvRun(w, turns(i).env), turns(i).outcome);
      Drive(cfg, l', w', turns, i + 1)
  }
}
