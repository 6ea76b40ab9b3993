/** The promises of the session controller, over every run of the system. */
module Guarantees {
  import opened Common
  import opened Egress
  import opened Names
  import opened Objects
  import opened Actions
  import opened Protocol
  import opened Invariants
  import opened Preservation

  // ------------------------------------------------------------ finalizer safety

  /** The session in the hands of a reconcile, if it has one. */
  function HeldSession(l: Local): Option<Session> {
    match l
    case Idle(_) => None
    case Begin => None
    case Cleanup(s) => Some(s)
    case DropFinalizer(s, _) => Some(s)
    case PutFinalizer(s) => Some(s)
    case FetchSpace(s) => Some(s)
    case Expire(s) => Some(s)
    case Setup(s, _, _) => Some(s)
    case ListForRestart(s) => Some(s)
    case DeletePods(s, _, _) => Some(s)
    case MarkHandled(s, _) => Some(s)
    case RestartStatus(s) => Some(s)
    case ListForWork(s, _) => Some(s)
    case Work(s, _, _, _) => Some(s)
    case ListForStatus(s, _, _, _) => Some(s)
    case WriteStatus(s) => Some(s)
  }

  /** A call creates a namespace or a pod only for a session that was read with the
      finalizer and without a deletion timestamp, and whose finalizer is still stored. */
  lemma CreationNeedsFinalizer(cfg: Config, moves: seq<Move>, k: string, o: Outcome)
    ensures var g := Run(cfg, START, moves);
      var g' := Next(cfg, g, Ctl(k, o));
      (NamespaceAt(g.cluster, k).None? && NamespaceAt(g'.cluster, k).Some?)
        || |PodsAt(g.cluster, k)| < |PodsAt(g'.cluster, k)|
      ==> var held := HeldSession(LocalOf(g, k));
          && held.Some? && held.value.finalizer && !held.value.deleting
          && k in g.cluster.sessions && g.cluster.sessions[k].uid == held.value.uid && g.cluster.sessions[k].finalizer
  {
    RunInv(cfg, moves);
    var g := Run(cfg, START, moves);
    assert Ok(g.cluster, k, LocalOf(g, k));
    var l := Started(LocalOf(g, k));
    if !l.Setup? && !l.Work? {
      NothingCreated(cfg, k, l, g.cluster, o);
    }
  }

  lemma NothingCreated(cfg: Config, k: string, l: Local, c: Cluster, o: Outcome)
    requires !l.Setup? && !l.Work?
    ensures var c' := Step(cfg, k, l, c, o).1;
      && (NamespaceAt(c, k).None? ==> NamespaceAt(c', k).None?)
      && |PodsAt(c', k)| == |PodsAt(c, k)|
  {
  }

  /** The controller lets a session leave the store only right after its namespace delete
      was issued: the namespace is gone or terminating, or the call reported an error. */
  lemma LeavesAfterNamespaceDelete(cfg: Config, moves: seq<Move>, k: string, o: Outcome)
    ensures var g := Run(cfg, START, moves);
      var g' := Next(cfg, g, Ctl(k, o));
      k in g.cluster.sessions && k !in g'.cluster.sessions
      ==> && LocalOf(g, k).DropFinalizer?
          && g.cluster.sessions[k].deleting
          && (NamespaceGone(g'.cluster, k)
              || (LocalOf(g, k).deleteFailed && g.cluster.sessions[k].uid in g'.cluster.leaked))
  {
    RunInv(cfg, moves);
    var g := Run(cfg, START, moves);
    assert Ok(g.cluster, k, LocalOf(g, k));
    var l := Started(LocalOf(g, k));
    if !l.DropFinalizer? && k in g.cluster.sessions {
      SessionStays(cfg, k, l, g.cluster, o);
    }
  }

  lemma SessionStays(cfg: Config, k: string, l: Local, c: Cluster, o: Outcome)
    requires !l.DropFinalizer? && Ok(c, k, l) && k in c.sessions
    ensures k in Step(cfg, k, l, c, o).1.sessions
  {
  }

  /** At any time, a namespace nobody is removing belongs to the live session that made it,
      or that session's namespace delete reported an error. */
  lemma NamespacesAccounted(cfg: Config, moves: seq<Move>, k: string)
    ensures var c := Run(cfg, START, moves).cluster;
      NamespaceAt(c, k).Some? ==> Accounted(c, k, NamespaceAt(c, k).value)
  {
    RunInv(cfg, moves);
    assert Ok(Run(cfg, START, moves).cluster, k, LocalOf(Run(cfg, START, moves), k));
  }

  // -------------------------------------------------------- isolation before workload

  /** The session or its namespace is not on its way out. */
  predicate Standing(c: Cluster, k: string) {
    && k in c.sessions && NamespaceAt(c, k).Some?
    && !(c.sessions[k].deleting && NamespaceAt(c, k).value.terminating)
  }

  /** At any time while a session is not being deleted, and even then until its namespace is
      torn down, every pod made for this incarnation sits behind its baseline policy, and
      behind a quota and a limit range when the space that reconcile had read sets resources. */
  lemma IsolationBeforeWorkload(cfg: Config, moves: seq<Move>, k: string, i: nat)
    ensures var c := Run(cfg, START, moves).cluster;
      Standing(c, k) && i < |PodsAt(c, k)| && PodsAt(c, k)[i].birth.uid == c.sessions[k].uid
      ==> var objects := NamespaceAt(c, k).value.objects;
          var p := PodsAt(c, k)[i];
          Guarded(objects, p.birth.uid, p.birth.capped)
          && exists b :: objects[BASELINE].body == PolicyBody(BaselinePolicy(b))
  {
    RunInv(cfg, moves);
    var g := Run(cfg, START, moves);
    var c := g.cluster;
    assert Ok(c, k, LocalOf(g, k));
    if Standing(c, k) && i < |PodsAt(c, k)| && PodsAt(c, k)[i].birth.uid == c.sessions[k].uid {
      var objects := NamespaceAt(c, k).value.objects;
      assert Guarded(objects, c.sessions[k].uid, PodsAt(c, k)[i].birth.capped);
      assert PolicyFits(BASELINE, objects[BASELINE].body);
      forall s ensures BASELINE != EgressKey(s) { PolicyNamesDistinct(s, s); }
      var b :| objects[BASELINE].body.policy == BaselinePolicy(b);
      assert objects[BASELINE].body == PolicyBody(BaselinePolicy(b));
    }
  }

  /** A namespace made for the current incarnation holds no unguarded pod at all. */
  lemma OwnNamespaceIsolated(cfg: Config, moves: seq<Move>, k: string, i: nat)
    ensures var c := Run(cfg, START, moves).cluster;
      Standing(c, k) && i < |PodsAt(c, k)| && NamespaceAt(c, k).value.birth == c.sessions[k].uid
      ==> Guarded(NamespaceAt(c, k).value.objects, c.sessions[k].uid, PodsAt(c, k)[i].birth.capped)
  {
    RunInv(cfg, moves);
    var g := Run(cfg, START, moves);
    assert Ok(g.cluster, k, LocalOf(g, k));
  }

  /** So while a session is not being deleted, a pod in its namespace without the guards
      means that the namespace was made for an earlier incarnation, and that it is being
      torn down or its delete had reported an error. */
  lemma UnguardedOnlyInOldNamespace(cfg: Config, moves: seq<Move>, k: string, i: nat)
    ensures var c := Run(cfg, START, moves).cluster;
      k in c.sessions && !c.sessions[k].deleting && i < |PodsAt(c, k)|
      && !Guarded(NamespaceAt(c, k).value.objects, c.sessions[k].uid, PodsAt(c, k)[i].birth.capped)
      ==> var n := NamespaceAt(c, k).value;
          n.birth < c.sessions[k].uid && (n.terminating || n.birth in c.leaked)
  {
    RunInv(cfg, moves);
    var g := Run(cfg, START, moves);
    assert Ok(g.cluster, k, LocalOf(g, k));
  }

  /** The user deletes the session, its namespace delete is refused and ignored, the
      collector removes the orphaned baseline, and the user creates the session again. */
  function LeakScenario(k: string, userId: string, spaceRef: string): seq<Move> {
    [Env(UserDeletes(k)), Ctl(k, Done(0)), Ctl(k, Refused), Ctl(k, Done(0)),
     Env(ObjectCollected(k, BASELINE)), Env(UserCreates(k, userId, spaceRef, false, ""))]
  }

  /** One call of the reconcile of k. */
  lemma CtlMoves(cfg: Config, g: System, k: string, o: Outcome)
    ensures var (l, c) := Step(cfg, k, Started(LocalOf(g, k)), g.cluster, o);
      Next(cfg, g, Ctl(k, o)).cluster == c && LocalOf(Next(cfg, g, Ctl(k, o)), k) == l
  {
  }

  lemma ReleaseMoves(cfg: Config, g: System, k: string, s: Session, failed: bool)
    requires LocalOf(g, k) == DropFinalizer(s, failed)
    requires k in g.cluster.sessions && g.cluster.sessions[k] == s && s.deleting
    ensures var c := Next(cfg, g, Ctl(k, Done(0))).cluster;
      && k !in c.sessions && c.namespaces == g.cluster.namespaces
      && (!failed ==> c.leaked == g.cluster.leaked)
  {
    CtlMoves(cfg, g, k, Done(0));
  }

  /** The three calls of a reconcile that finds the session deleted: its namespace is as
      the delete call left it, and the session is gone. */
  lemma DeletionMoves(cfg: Config, g: System, k: string, o: Outcome)
    requires LocalOf(g, k).Idle? && !o.LostReply?
    requires k in g.cluster.sessions && g.cluster.sessions[k].finalizer && g.cluster.sessions[k].deleting
    ensures var g' := Next(cfg, Next(cfg, Next(cfg, g, Ctl(k, Done(0))), Ctl(k, o)), Ctl(k, Done(0)));
      && k !in g'.cluster.sessions
      && NamespaceAt(g'.cluster, k) == NamespaceAt(DeleteNamespace(g.cluster, k, o).0, k)
      && (o.Done? ==> g'.cluster.leaked == g.cluster.leaked)
  {
    var s := g.cluster.sessions[k];
    var g1 := Next(cfg, g, Ctl(k, Done(0)));
    var g2 := Next(cfg, g1, Ctl(k, o));
    CtlMoves(cfg, g, k, Done(0));
    assert LocalOf(g1, k) == Cleanup(s) && g1.cluster == g.cluster;
    CtlMoves(cfg, g1, k, o);
    ReleaseMoves(cfg, g2, k, s, !o.Done?);
  }

  /** What losing the baseline and creating the session again does. */
  lemma RecreatedBare(cfg: Config, g: System, k: string, userId: string, spaceRef: string, e: EnvStep)
    requires k !in g.cluster.sessions && NamespaceAt(g.cluster, k).Some?
    requires e == ObjectPurged(k, BASELINE) || e == ObjectCollected(k, BASELINE)
    requires var n := NamespaceAt(g.cluster, k).value;
      if e.ObjectPurged? then n.terminating else BASELINE in n.objects && n.objects[BASELINE].owner.Some?
    ensures var g' := Next(cfg, Next(cfg, g, Env(e)), Env(UserCreates(k, userId, spaceRef, false, "")));
      var n := NamespaceAt(g.cluster, k).value;
      && k in g'.cluster.sessions && !g'.cluster.sessions[k].deleting && g'.cluster.leaked == g.cluster.leaked
      && NamespaceAt(g'.cluster, k) == Some(n.(objects := n.objects - {BASELINE}))
  {
  }

  /** Isolation does not extend to pods of an earlier incarnation: whenever a settled
      session has a pod, a refused namespace delete followed by re-creation of the session
      leaves that pod running with no baseline under a session that is not being deleted. */
  lemma LeakedNamespaceUnguarded(cfg: Config, g: System, k: string, userId: string, spaceRef: string)
    requires LocalOf(g, k).Idle?
    requires k in g.cluster.sessions && g.cluster.sessions[k].finalizer && !g.cluster.sessions[k].deleting
    requires NamespaceAt(g.cluster, k).Some? && !NamespaceAt(g.cluster, k).value.terminating
      && PodsAt(g.cluster, k) != []
    requires var objects := NamespaceAt(g.cluster, k).value.objects;
      BASELINE in objects && objects[BASELINE].owner == Some(Own(g.cluster.sessions[k].uid))
    ensures var c := Run(cfg, g, LeakScenario(k, userId, spaceRef)).cluster;
      && k in c.sessions && !c.sessions[k].deleting
      && NamespaceAt(c, k).Some? && !NamespaceAt(c, k).value.terminating
      && PodsAt(c, k) == PodsAt(g.cluster, k) && BASELINE !in NamespaceAt(c, k).value.objects
  {
    var m := LeakScenario(k, userId, spaceRef);
    var g1 := Next(cfg, g, m[0]);
    RunSix(cfg, g, m);
    assert NamespaceAt(g1.cluster, k) == NamespaceAt(g.cluster, k);
    DeletionMoves(cfg, g1, k, Refused);
    RecreatedBare(cfg, Next(cfg, Next(cfg, Next(cfg, g1, m[1]), m[2]), m[3]), k, userId, spaceRef,
                  ObjectCollected(k, BASELINE));
  }

  /** The user deletes the session and creates it again while its namespace is torn down. */
  function TeardownScenario(k: string, userId: string, spaceRef: string): seq<Move> {
    [Env(UserDeletes(k)), Ctl(k, Done(0)), Ctl(k, Done(0)), Ctl(k, Done(0)),
     Env(ObjectPurged(k, BASELINE)), Env(UserCreates(k, userId, spaceRef, false, ""))]
  }

  /** The other way to such a pod needs no failed call: the namespace controller may drop
      the baseline before the pods, and the session may be back by then. */
  lemma TornDownNamespaceUnguarded(cfg: Config, g: System, k: string, userId: string, spaceRef: string)
    requires LocalOf(g, k).Idle?
    requires k in g.cluster.sessions && g.cluster.sessions[k].finalizer && !g.cluster.sessions[k].deleting
    requires NamespaceAt(g.cluster, k).Some? && PodsAt(g.cluster, k) != []
    ensures var c := Run(cfg, g, TeardownScenario(k, userId, spaceRef)).cluster;
      && k in c.sessions && !c.sessions[k].deleting && c.leaked == g.cluster.leaked
      && NamespaceAt(c, k).Some? && NamespaceAt(c, k).value.terminating
      && PodsAt(c, k) == PodsAt(g.cluster, k) && BASELINE !in NamespaceAt(c, k).value.objects
  {
    var m := TeardownScenario(k, userId, spaceRef);
    var g1 := Next(cfg, g, m[0]);
    RunSix(cfg, g, m);
    assert NamespaceAt(g1.cluster, k) == NamespaceAt(g.cluster, k);
    DeletionMoves(cfg, g1, k, Done(0));
    RecreatedBare(cfg, Next(cfg, Next(cfg, Next(cfg, g1, m[1]), m[2]), m[3]), k, userId, spaceRef,
                  ObjectPurged(k, BASELINE));
  }

  lemma RunSix(cfg: Config, g: System, m: seq<Move>)
    requires |m| == 6
    ensures Run(cfg, g, m)
      == Next(cfg, Next(cfg, Next(cfg, Next(cfg, Next(cfg, Next(cfg, g, m[0]), m[1]), m[2]), m[3]), m[4]), m[5])
  {
    assert m[..5][..4] == m[..4] && m[..4][..3] == m[..3] && m[..3][..2] == m[..2] && m[..2][..1] == m[..1]
      && m[..1][..0] == [];
    assert Run(cfg, g, m[..1]) == Next(cfg, g, m[0]);
    assert Run(cfg, g, m[..2]) == Next(cfg, Run(cfg, g, m[..1]), m[1]);
    assert Run(cfg, g, m[..3]) == Next(cfg, Run(cfg, g, m[..2]), m[2]);
    assert Run(cfg, g, m[..4]) == Next(cfg, Run(cfg, g, m[..3]), m[3]);
    assert Run(cfg, g, m[..5]) == Next(cfg, Run(cfg, g, m[..4]), m[4]);
  }

  // ---------------------------------------------------------------- restart protocol

  /** When the handled annotation changes, it takes the value the reconcile had read and
      that is still the requested one, so a racing bump is never marked handled; and every
      pod then alive is one whose delete call had reported an error. */
  lemma HandledMeansRestarted(cfg: Config, moves: seq<Move>, k: string, move: Move)
    ensures var g := Run(cfg, START, moves);
      var g' := Next(cfg, g, move);
      k in g.cluster.sessions && k in g'.cluster.sessions
      && g.cluster.sessions[k].uid == g'.cluster.sessions[k].uid
      && g.cluster.sessions[k].handled != g'.cluster.sessions[k].handled
      ==> var l := LocalOf(g, k);
          && l.MarkHandled?
          && g'.cluster.sessions[k].handled == l.s.requested == g.cluster.sessions[k].requested
          && g'.cluster.sessions[k].requested == g.cluster.sessions[k].requested
          && LiveWithin(PodsAt(g'.cluster, k), [], l.failed)
  {
    RunInv(cfg, moves);
    var g := Run(cfg, START, moves);
    var g' := Next(cfg, g, move);
    if k in g.cluster.sessions && k in g'.cluster.sessions {
      assert Ok(g.cluster, k, LocalOf(g, k));
      match move
      case Ctl(other, o) =>
        var l := Started(LocalOf(g, other));
        if other != k {
          StepConfined(cfg, other, l, g.cluster, o);
          ConfinedElsewhere(g.cluster, g'.cluster, k, other);
        } else if !l.MarkHandled? {
          OnlyMarkHandled(cfg, k, l, g.cluster, o);
        }
      case Crash(_) =>
      case Env(e) => EnvKeepsHandled(g.cluster, e, k);
    }
  }

  lemma StatusKeepsRest(cfg: Config, k: string, l: Local, c: Cluster, o: Outcome)
    requires (l.RestartStatus? || l.WriteStatus?) && Ok(c, k, l) && k in c.sessions
    ensures var c' := Step(cfg, k, l, c, o).1;
      k in c'.sessions
        && c'.sessions[k] == c.sessions[k].(status := c'.sessions[k].status, version := c'.sessions[k].version)
  {
  }

  lemma OnlyMarkHandled(cfg: Config, k: string, l: Local, c: Cluster, o: Outcome)
    requires !l.MarkHandled? && Ok(c, k, l) && k in c.sessions && k in Step(cfg, k, l, c, o).1.sessions
    ensures Step(cfg, k, l, c, o).1.sessions[k].handled == c.sessions[k].handled
  {
    if !WritesSession(l) {
      OthersKeepSessions(cfg, k, l, c, o);
    } else if l.RestartStatus? || l.WriteStatus? {
      StatusKeepsRest(cfg, k, l, c, o);
    }
  }

  lemma EnvKeepsHandled(c: Cluster, e: EnvStep, k: string)
    requires k in c.sessions && k in EnvApply(c, e).sessions
    ensures EnvApply(c, e).sessions[k].handled == c.sessions[k].handled
    ensures EnvApply(c, e).sessions[k].uid == c.sessions[k].uid
    ensures SameTimers(EnvApply(c, e).sessions[k].status, c.sessions[k].status)
  {
  }

  /** A session never completes more restarts than users wrote restart requests, and a
      pod is never effectively deleted twice by the controller. */
  lemma RestartsBounded(cfg: Config, moves: seq<Move>, k: string, i: nat)
    ensures var c := Run(cfg, START, moves).cluster;
      && (k in c.sessions ==> c.sessions[k].history.restarts <= c.sessions[k].history.bumps)
      && (i < |PodsAt(c, k)| ==> PodsAt(c, k)[i].deletes <= 1)
  {
    RunInv(cfg, moves);
    var g := Run(cfg, START, moves);
    assert Ok(g.cluster, k, LocalOf(g, k));
    if i < |PodsAt(g.cluster, k)| {
      assert PodOk(PodsAt(g.cluster, k)[i], g.cluster.nextUid);
    }
  }

  /** The controller changes a pod only by deleting it, and only for a session whose request
      annotation was read as set and different from the handled one. */
  lemma DeletedOnRequest(cfg: Config, moves: seq<Move>, k: string, o: Outcome, i: nat)
    ensures var g := Run(cfg, START, moves);
      var before, after := PodsAt(g.cluster, k), PodsAt(Next(cfg, g, Ctl(k, o)).cluster, k);
      i < |before| ==>
        && i < |after|
        && (before[i] != after[i] ==>
              && RequestHeld(LocalOf(g, k))
              && after[i] == before[i].(terminating := true, deletes := before[i].deletes + 1))
  {
    RunInv(cfg, moves);
    var g := Run(cfg, START, moves);
    assert Ok(g.cluster, k, LocalOf(g, k));
    var l := Started(LocalOf(g, k));
    if l.DeletePods? {
      DeletedPods(cfg, k, l, g.cluster, o);
    } else {
      FoundPodsStay(cfg, k, l, g.cluster, o);
    }
  }

  /** The reconcile is deleting pods for a request it read as set and not handled. */
  predicate RequestHeld(l: Local) {
    l.DeletePods? && l.s.requested != "" && l.s.requested != l.s.handled
  }

  lemma DeletedPods(cfg: Config, k: string, l: Local, c: Cluster, o: Outcome)
    requires l.DeletePods? && LocalOk(c, k, l)
    ensures var before, after := PodsAt(c, k), PodsAt(Step(cfg, k, l, c, o).1, k);
      && RequestHeld(l) && |after| == |before|
      && forall i :: 0 <= i < |before| && before[i] != after[i]
           ==> after[i] == before[i].(terminating := true, deletes := before[i].deletes + 1)
  {
  }

  lemma FoundPodsStay(cfg: Config, k: string, l: Local, c: Cluster, o: Outcome)
    requires !l.DeletePods?
    ensures PodsAt(c, k) <= PodsAt(Step(cfg, k, l, c, o).1, k)
  {
  }

  // ------------------------------------------------------------------------- expiry

  /** The controller marks a session deleted only strictly after its expiry. */
  lemma NeverDeletedEarly(cfg: Config, moves: seq<Move>, k: string, o: Outcome)
    ensures var g := Run(cfg, START, moves);
      var g' := Next(cfg, g, Ctl(k, o));
      k in g.cluster.sessions && !g.cluster.sessions[k].deleting
      && (k !in g'.cluster.sessions || g'.cluster.sessions[k].deleting)
      ==> Expired(g.cluster.sessions[k], g.cluster.clock)
  {
    RunInv(cfg, moves);
    var g := Run(cfg, START, moves);
    assert Ok(g.cluster, k, LocalOf(g, k));
    var l := Started(LocalOf(g, k));
    if k in g.cluster.sessions && !g.cluster.sessions[k].deleting && !l.Expire? {
      OnlyExpireDeletes(cfg, k, l, g.cluster, o);
    }
  }

  lemma OnlyExpireDeletes(cfg: Config, k: string, l: Local, c: Cluster, o: Outcome)
    requires !l.Expire? && Ok(c, k, l) && k in c.sessions && !c.sessions[k].deleting
    ensures var c' := Step(cfg, k, l, c, o).1; k in c'.sessions && !c'.sessions[k].deleting
  {
  }

  lemma UpdatesKeepStatus(cfg: Config, k: string, l: Local, c: Cluster, o: Outcome)
    requires l.DropFinalizer? || l.PutFinalizer? || l.Expire? || l.MarkHandled?
    ensures var c' := Step(cfg, k, l, c, o).1;
      k in c'.sessions ==> k in c.sessions && c'.sessions[k].status == c.sessions[k].status
  {
  }

  lemma StepKeepsTimers(cfg: Config, k: string, l: Local, c: Cluster, o: Outcome)
    requires Ok(c, k, l) && k in c.sessions && TimersSet(c.sessions[k].status)
    ensures var c' := Step(cfg, k, l, c, o).1;
      k in c'.sessions ==> SameTimers(c'.sessions[k].status, c.sessions[k].status)
  {
    if !WritesSession(l) {
      OthersKeepSessions(cfg, k, l, c, o);
    } else if !l.RestartStatus? && !l.WriteStatus? {
      UpdatesKeepStatus(cfg, k, l, c, o);
    }
  }

  /** Start and expiry are set together, and once set nothing changes them. */
  lemma TimersFixed(cfg: Config, moves: seq<Move>, k: string, move: Move)
    ensures var g := Run(cfg, START, moves);
      var g' := Next(cfg, g, move);
      k in g.cluster.sessions && k in g'.cluster.sessions && g.cluster.sessions[k].uid == g'.cluster.sessions[k].uid
      ==> && (g'.cluster.sessions[k].status.startTime.Some? <==> g'.cluster.sessions[k].status.expiredTime.Some?)
          && (g.cluster.sessions[k].status.startTime.Some?
              ==> SameTimers(g.cluster.sessions[k].status, g'.cluster.sessions[k].status))
  {
    RunInv(cfg, moves);
    var g := Run(cfg, START, moves);
    NextInv(cfg, g, move);
    var g' := Next(cfg, g, move);
    if k in g.cluster.sessions && k in g'.cluster.sessions {
      assert Ok(g.cluster, k, LocalOf(g, k)) && Ok(g'.cluster, k, LocalOf(g', k));
      match move
      case Ctl(other, o) =>
        var l := Started(LocalOf(g, other));
        if other != k {
          StepConfined(cfg, other, l, g.cluster, o);
          ConfinedElsewhere(g.cluster, g'.cluster, k, other);
        } else {
          if TimersSet(g.cluster.sessions[k].status) {
            StepKeepsTimers(cfg, k, l, g.cluster, o);
          }
        }
      case Crash(_) =>
      case Env(e) => EnvKeepsHandled(g.cluster, e, k);
    }
  }
}
