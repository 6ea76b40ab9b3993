/** Sessions do not interfere: footprints lie in distinct namespaces and own objects. */
module Interference {
  import opened Common
  import opened Objects
  import opened Actions
  import opened Protocol
  import opened Invariants
  import opened Preservation

  /** The two systems look alike from session k: its object, its namespace, its reconcile
      in progress, and what all sessions share. */
  predicate Agree(g: System, h: System, k: string) {
    && SameAt(g.cluster, h.cluster, k)
    && LocalOf(g, k) == LocalOf(h, k)
    && SameShared(g.cluster, h.cluster)
  }

  predicate SameShared(c: Cluster, d: Cluster) {
    c.clock == d.clock && c.spaces == d.spaces && c.services == d.services && c.nextUid == d.nextUid
  }

  lemma StoreLocal(c: Cluster, d: Cluster, k: string, s: Session)
    requires SameAt(c, d, k)
    ensures SameAt(StoreSession(c, k, s), StoreSession(d, k, s), k)
  {
  }

  lemma UpdateSessionLocal(c: Cluster, d: Cluster, k: string, s: Session, o: Outcome)
    requires SameAt(c, d, k)
    ensures UpdateSession(c, k, s, o).1 == UpdateSession(d, k, s, o).1
    ensures SameAt(UpdateSession(c, k, s, o).0, UpdateSession(d, k, s, o).0, k)
  {
    forall t ensures SameAt(StoreSession(c, k, t), StoreSession(d, k, t), k) { StoreLocal(c, d, k, t); }
  }

  lemma UpdateStatusLocal(c: Cluster, d: Cluster, k: string, s: Session, o: Outcome)
    requires SameAt(c, d, k)
    ensures UpdateStatus(c, k, s, o).1 == UpdateStatus(d, k, s, o).1
    ensures SameAt(UpdateStatus(c, k, s, o).0, UpdateStatus(d, k, s, o).0, k)
  {
    forall t ensures SameAt(StoreSession(c, k, t), StoreSession(d, k, t), k) { StoreLocal(c, d, k, t); }
  }

  lemma DeleteSessionLocal(c: Cluster, d: Cluster, k: string, o: Outcome)
    requires SameAt(c, d, k)
    ensures DeleteSession(c, k, o).1 == DeleteSession(d, k, o).1
    ensures SameAt(DeleteSession(c, k, o).0, DeleteSession(d, k, o).0, k)
    ensures SameAt(MarkSessionDeleted(c, k), MarkSessionDeleted(d, k), k)
  {
    forall t ensures SameAt(StoreSession(c, k, t), StoreSession(d, k, t), k) { StoreLocal(c, d, k, t); }
  }

  lemma WithNamespaceLocal(c: Cluster, d: Cluster, k: string, ns: Option<Namespace>)
    requires SameAt(c, d, k)
    ensures SameAt(WithNamespace(c, k, ns), WithNamespace(d, k, ns), k)
  {
  }

  lemma NamespaceCallsLocal(c: Cluster, d: Cluster, k: string, a: Action, who: Birth, name: string, o: Outcome)
    requires SameAt(c, d, k)
    ensures DeleteNamespace(c, k, o).1 == DeleteNamespace(d, k, o).1
    ensures SameAt(DeleteNamespace(c, k, o).0, DeleteNamespace(d, k, o).0, k)
    ensures Act(c, k, a, who, o).1 == Act(d, k, a, who, o).1
    ensures SameAt(Act(c, k, a, who, o).0, Act(d, k, a, who, o).0, k)
    ensures DeletePod(c, k, name, o).1 == DeletePod(d, k, name, o).1
    ensures SameAt(DeletePod(c, k, name, o).0, DeletePod(d, k, name, o).0, k)
  {
    forall ns ensures SameAt(WithNamespace(c, k, ns), WithNamespace(d, k, ns), k) {
      WithNamespaceLocal(c, d, k, ns);
    }
    assert PodsAt(c, k) == PodsAt(d, k);
  }

  /** A namespace call of the reconcile of k. */
  lemma ActStepLocal(cfg: Config, k: string, l: Local, c: Cluster, d: Cluster, o: Outcome)
    requires l.Setup? || l.Work?
    requires SameAt(c, d, k) && SameShared(c, d)
    ensures Step(cfg, k, l, c, o).0 == Step(cfg, k, l, d, o).0
    ensures SameAt(Step(cfg, k, l, c, o).1, Step(cfg, k, l, d, o).1, k)
  {
    if l.todo != [] {
      NamespaceCallsLocal(c, d, k, l.todo[0], WhoOf(l.s, l.space), "", o);
      NamespaceCallsConfined(c, k, l.todo[0], WhoOf(l.s, l.space), "", o);
      NamespaceCallsConfined(d, k, l.todo[0], WhoOf(l.s, l.space), "", o);
    }
  }

  lemma StatusStepLocal(cfg: Config, k: string, l: Local, c: Cluster, d: Cluster, o: Outcome)
    requires l.WriteStatus? || l.RestartStatus?
    requires SameAt(c, d, k) && SameShared(c, d)
    ensures Step(cfg, k, l, c, o).0 == Step(cfg, k, l, d, o).0
    ensures SameAt(Step(cfg, k, l, c, o).1, Step(cfg, k, l, d, o).1, k)
  {
    var s := if l.WriteStatus? then l.s else l.s.(status := RestartingStatus(l.s.status));
    UpdateStatusLocal(c, d, k, s, o);
    SessionCallsConfined(c, k, s, o);
    SessionCallsConfined(d, k, s, o);
  }

  lemma DropStepLocal(cfg: Config, k: string, l: Local, c: Cluster, d: Cluster, o: Outcome)
    requires l.DropFinalizer? && SameAt(c, d, k) && SameShared(c, d)
    ensures Step(cfg, k, l, c, o).0 == Step(cfg, k, l, d, o).0
    ensures SameAt(Step(cfg, k, l, c, o).1, Step(cfg, k, l, d, o).1, k)
  {
    UpdateSessionLocal(c, d, k, l.s.(finalizer := false), o);
  }

  lemma SessionStepLocal(cfg: Config, k: string, l: Local, c: Cluster, d: Cluster, o: Outcome)
    requires l.DropFinalizer? || l.PutFinalizer? || l.Expire? || l.MarkHandled?
    requires SameAt(c, d, k) && SameShared(c, d)
    ensures Step(cfg, k, l, c, o).0 == Step(cfg, k, l, d, o).0
    ensures SameAt(Step(cfg, k, l, c, o).1, Step(cfg, k, l, d, o).1, k)
  {
    match l
    case Expire(s) => DeleteSessionLocal(c, d, k, o);
    case MarkHandled(s, _) => UpdateSessionLocal(c, d, k, s.(handled := s.requested), o);
    case PutFinalizer(s) => UpdateSessionLocal(c, d, k, s.(finalizer := true), o);
    case DropFinalizer(_, _) => DropStepLocal(cfg, k, l, c, d, o);
  }

  /** A call of session k reads and writes only what belongs to k. */
  lemma StepLocal(cfg: Config, k: string, l: Local, c: Cluster, d: Cluster, o: Outcome)
    requires SameAt(c, d, k) && SameShared(c, d)
    ensures Step(cfg, k, l, c, o).0 == Step(cfg, k, l, d, o).0
    ensures SameAt(Step(cfg, k, l, c, o).1, Step(cfg, k, l, d, o).1, k)
  {
    if l.Setup? || l.Work? {
      ActStepLocal(cfg, k, l, c, d, o);
    } else if l.WriteStatus? || l.RestartStatus? {
      StatusStepLocal(cfg, k, l, c, d, o);
    } else if l.DropFinalizer? || l.PutFinalizer? || l.Expire? || l.MarkHandled? {
      SessionStepLocal(cfg, k, l, c, d, o);
    } else if l.Cleanup? {
      NamespaceCallsLocal(c, d, k, EnsureNamespace, Birth(0, false), "", o);
    } else if l.DeletePods? {
      if l.pods != [] { NamespaceCallsLocal(c, d, k, EnsureNamespace, Birth(0, false), l.pods[0], o); }
    } else {
      assert PodsAt(c, k) == PodsAt(d, k);
    }
  }

  lemma EnvShared(c: Cluster, d: Cluster, e: EnvStep)
    requires SameShared(c, d)
    ensures SameShared(EnvApply(c, e), EnvApply(d, e))
  {
  }

  lemma EnvLocal(c: Cluster, d: Cluster, k: string, e: EnvStep)
    requires SameAt(c, d, k) && SameShared(c, d)
    ensures SameAt(EnvApply(c, e), EnvApply(d, e), k)
  {
    if !Touches(e, k) {
      EnvElsewhere(c, e, k);
      EnvElsewhere(d, e, k);
    } else if e.UserDeletes? {
      DeleteSessionLocal(c, d, k, Done(0));
    } else {
      forall ns ensures SameAt(WithNamespace(c, k, ns), WithNamespace(d, k, ns), k) {
        WithNamespaceLocal(c, d, k, ns);
      }
      assert PodsAt(c, k) == PodsAt(d, k);
    }
  }

  // ------------------------------------------------------------------- interleavings

  /** What is left of a run when the controller never works on any session but k. */
  function Alone(moves: seq<Move>, k: string): seq<Move> {
    if moves == [] then []
    else
      var last := moves[|moves| - 1];
      Alone(moves[..|moves| - 1], k) + (if last.Env? || last.k == k then [last] else [])
  }

  lemma NextAgree(cfg: Config, g: System, h: System, k: string, move: Move)
    requires Agree(g, h, k)
    ensures if move.Env? || move.k == k then Agree(Next(cfg, g, move), Next(cfg, h, move), k)
            else Agree(Next(cfg, g, move), h, k)
  {
    match move
    case Ctl(other, o) =>
      var l := Started(LocalOf(g, other));
      StepConfined(cfg, other, l, g.cluster, o);
      if other == k {
        StepConfined(cfg, k, l, h.cluster, o);
        StepLocal(cfg, k, l, g.cluster, h.cluster, o);
      } else {
        ConfinedElsewhere(g.cluster, Next(cfg, g, move).cluster, k, other);
      }
    case Crash(_) =>
    case Env(e) =>
      EnvShared(g.cluster, h.cluster, e);
      EnvLocal(g.cluster, h.cluster, k, e);
  }

  /** In every interleaving, at the level of single API calls, of reconciles of any number
      of sessions with any environment, session k and its namespace end up as if no other
      session had been reconciled at all. */
  lemma {:induction false} SessionsDoNotInterfere(cfg: Config, g: System, moves: seq<Move>, k: string)
    ensures Agree(Run(cfg, g, moves), Run(cfg, g, Alone(moves, k)), k)
    decreases |moves|
  {
    if moves != [] {
      var front, last := moves[..|moves| - 1], moves[|moves| - 1];
      SessionsDoNotInterfere(cfg, g, front, k);
      NextAgree(cfg, Run(cfg, g, front), Run(cfg, g, Alone(front, k)), k, last);
      if last.Env? || last.k == k {
        assert Alone(moves, k)[..|Alone(front, k)|] == Alone(front, k);
      } else {
        assert Alone(moves, k) == Alone(front, k);
      }
    }
  }
}
