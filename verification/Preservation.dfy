/** Every controller call and every environment step preserves the invariants. */
module Preservation {
  import opened Common
  import opened Names
  import opened Objects
  import opened Actions
  import opened Protocol
  import opened Invariants

  // ---------------------------------------------------------------- namespace calls

  lemma ApplyPodsOk(a: Action, who: Birth, draw: nat, pods: seq<Pod>, nextUid: Uid)
    requires PodsOk(pods, nextUid) && who.uid < nextUid
    ensures PodsOk(ApplyPods(a, who, draw, pods), nextUid)
  {
    var after := ApplyPods(a, who, draw, pods);
    forall i, j | 0 <= i < j < |after| ensures after[i].name != after[j].name {
      if j == |pods| { assert pods[i] == after[i]; }
    }
  }

  lemma ApplyObjectsOk(a: Action, uid: Uid, objects: map<Key, Obj>)
    requires Sound(a) && ObjectsOk(objects)
    ensures ObjectsOk(ApplyObjects(a, uid, objects))
    ensures forall key :: Pillar(key) && key in objects ==> key in ApplyObjects(a, uid, objects)
    ensures BASELINE in objects && objects[BASELINE].owner == Some(Own(uid))
      ==> ApplyObjects(a, uid, objects)[BASELINE].owner == Some(Own(uid))
    ensures a.Put? && Pillar(a.key) ==> a.key in ApplyObjects(a, uid, objects)
    ensures a.Put? && a.key == BASELINE ==> ApplyObjects(a, uid, objects)[BASELINE].owner == Some(Own(uid))
  {
  }

  lemma ApplyPodsGuarded(a: Action, who: Birth, draw: nat, pods: seq<Pod>, objects: map<Key, Obj>)
    requires Sound(a) && ObjectsOk(objects) && PodsGuarded(pods, objects, who.uid)
    requires a.CreatePod? ==> Guarded(objects, who.uid, who.capped)
    ensures PodsGuarded(ApplyPods(a, who, draw, pods), ApplyObjects(a, who.uid, objects), who.uid)
  {
    ApplyObjectsOk(a, who.uid, objects);
    var after, objects' := ApplyPods(a, who, draw, pods), ApplyObjects(a, who.uid, objects);
    forall i | 0 <= i < |after| && after[i].birth.uid == who.uid
      ensures Guarded(objects', who.uid, after[i].birth.capped)
    {
      if i < |pods| { assert after[i] == pods[i]; }
      assert Guarded(objects, who.uid, after[i].birth.capped);
    }
  }

  /** One namespace call of the session that holds the finalizer. */
  lemma ActOk(c: Cluster, k: string, a: Action, s: Session, space: Space, o: Outcome)
    requires SessionOk(c, k) && NamespaceOk(c, k) && Pinned(c, k, s) && Sound(a)
    requires a.CreatePod? ==> SetUp(c, k, s, space, [])
    ensures var c' := Act(c, k, a, WhoOf(s, space), o).0;
      SessionOk(c', k) && NamespaceOk(c', k) && Pinned(c', k, s)
  {
    var who := WhoOf(s, space);
    if Applied(c, k, a, who, o) {
      var ns := NamespaceAt(c, k);
      if ns.Some? {
        var n := ns.value;
        ApplyPodsOk(a, who, DrawOf(o), n.pods, c.nextUid);
        ApplyObjectsOk(a, who.uid, n.objects);
        if !n.terminating {
          ApplyPodsGuarded(a, who, DrawOf(o), n.pods, n.objects);
        } else {
        }
      }
    }
  }

  predicate Applied(c: Cluster, k: string, a: Action, who: Birth, o: Outcome) {
    !o.Refused? && Admits(a, NamespaceAt(c, k))
  }

  /** The pillars still missing are among the calls still to come. */
  lemma ActSetUp(c: Cluster, k: string, s: Session, space: Space, todo: seq<Action>, o: Outcome)
    requires todo != [] && AllSound(todo) && Ordered(space, todo) && NamespaceOk(c, k)
    requires SetUp(c, k, s, space, todo)
    ensures var (c', ok) := Act(c, k, todo[0], WhoOf(s, space), o);
      ok ==> SetUp(c', k, s, space, todo[1..]) && Ordered(space, todo[1..])
  {
    var (c', ok) := Act(c, k, todo[0], WhoOf(s, space), o);
    if ok && NamespaceAt(c', k).Some? && !NamespaceAt(c', k).value.terminating {
      var a := todo[0];
      assert Sound(a);
      var objects' := NamespaceAt(c', k).value.objects;
      if NamespaceAt(c, k).Some? {
        ApplyObjectsOk(a, s.uid, NamespaceAt(c, k).value.objects);
      }
      forall key | Pillar(key) && WritesKey(todo, key)
        ensures WritesKey(todo[1..], key) || (a.Put? && a.key == key)
      {
        var b :| b in todo && b.Put? && b.key == key;
        if b != a { assert b in todo[1..]; }
      }
    }
  }

  /** Work calls keep what was set up, whatever they write. */
  lemma ActKeepsSetUp(c: Cluster, k: string, s: Session, space: Space, a: Action, o: Outcome)
    requires Sound(a) && NamespaceOk(c, k) && !a.EnsureNamespace?
    requires SetUp(c, k, s, space, [])
    ensures SetUp(Act(c, k, a, WhoOf(s, space), o).0, k, s, space, [])
  {
    if NamespaceAt(c, k).Some? {
      ApplyObjectsOk(a, s.uid, NamespaceAt(c, k).value.objects);
    }
  }

  // ------------------------------------------------------------------ session calls

  /** Writing an accepted version of the session keeps its namespace in order, as long as
      identity and finalizer stay. */
  lemma NamespaceAfterSession(c: Cluster, c': Cluster, k: string)
    requires NamespaceOk(c, k)
    requires c'.namespaces == c.namespaces && c'.nextUid == c.nextUid && c.leaked <= c'.leaked
    requires k in c.sessions && k in c'.sessions && c'.sessions[k].uid == c.sessions[k].uid
    requires c.sessions[k].finalizer ==> c'.sessions[k].finalizer
    requires c.sessions[k].deleting ==> c'.sessions[k].deleting
    ensures NamespaceOk(c', k)
  {
    assert NamespaceAt(c, k) == NamespaceAt(c', k);
  }

  lemma NamespaceAfterRemoval(c: Cluster, c': Cluster, k: string)
    requires NamespaceOk(c, k) && k in c.sessions
    requires c'.namespaces == c.namespaces && c'.nextUid == c.nextUid && c.leaked <= c'.leaked
    requires k !in c'.sessions
    requires c.sessions[k].finalizer ==> NamespaceGone(c, k) || c.sessions[k].uid in c'.leaked
    ensures NamespaceOk(c', k)
  {
    assert NamespaceAt(c, k) == NamespaceAt(c', k);
  }

  lemma StepBegin(cfg: Config, k: string, c: Cluster, o: Outcome)
    requires Ok(c, k, Begin)
    ensures var (l', c') := Step(cfg, k, Begin, c, o); Ok(c', k, l')
  {
  }

  lemma StepCleanup(cfg: Config, k: string, l: Local, c: Cluster, o: Outcome)
    requires l.Cleanup? && Ok(c, k, l)
    ensures var (l', c') := Step(cfg, k, l, c, o); Ok(c', k, l')
  {
  }

  lemma StepDropFinalizer(cfg: Config, k: string, l: Local, c: Cluster, o: Outcome)
    requires l.DropFinalizer? && Ok(c, k, l)
    ensures var (l', c') := Step(cfg, k, l, c, o); Ok(c', k, l')
  {
    var c' := Step(cfg, k, l, c, o).1;
    if !o.Refused? && Current(c, k, l.s) {
      assert c.sessions[k] == l.s;
      assert c' != c by { assert k !in c'.sessions; }
      NamespaceAfterRemoval(c, c', k);
    }
  }

  lemma StepPutFinalizer(cfg: Config, k: string, l: Local, c: Cluster, o: Outcome)
    requires l.PutFinalizer? && Ok(c, k, l)
    ensures var (l', c') := Step(cfg, k, l, c, o); Ok(c', k, l')
  {
    var c' := Step(cfg, k, l, c, o).1;
    if !o.Refused? && Current(c, k, l.s) {
      assert c.sessions[k] == l.s;
      NamespaceAfterSession(c, c', k);
    }
  }

  lemma StepFetchSpace(cfg: Config, k: string, l: Local, c: Cluster, o: Outcome)
    requires l.FetchSpace? && Ok(c, k, l)
    ensures var (l', c') := Step(cfg, k, l, c, o); Ok(c', k, l')
  {
    var l' := Step(cfg, k, l, c, o).0;
    if l'.Setup? {
      SetupSound(cfg, l'.space);
      assert l'.todo[0].EnsureNamespace?;
    }
  }

  lemma StepExpire(cfg: Config, k: string, l: Local, c: Cluster, o: Outcome)
    requires l.Expire? && Ok(c, k, l)
    ensures var (l', c') := Step(cfg, k, l, c, o); Ok(c', k, l')
  {
    var c' := Step(cfg, k, l, c, o).1;
    if c' != c {
      NamespaceAfterSession(c, c', k);
    }
  }

  lemma StepMarkHandled(cfg: Config, k: string, l: Local, c: Cluster, o: Outcome)
    requires l.MarkHandled? && Ok(c, k, l)
    ensures var (l', c') := Step(cfg, k, l, c, o); Ok(c', k, l')
  {
    var c' := Step(cfg, k, l, c, o).1;
    if !o.Refused? && Current(c, k, l.s) {
      assert c.sessions[k] == l.s;
      NamespaceAfterSession(c, c', k);
    }
  }

  lemma StepRestartStatus(cfg: Config, k: string, l: Local, c: Cluster, o: Outcome)
    requires l.RestartStatus? && Ok(c, k, l)
    ensures var (l', c') := Step(cfg, k, l, c, o); Ok(c', k, l')
  {
    var c' := Step(cfg, k, l, c, o).1;
    if !o.Refused? && Current(c, k, l.s) {
      assert c.sessions[k] == l.s;
      NamespaceAfterSession(c, c', k);
    }
  }

  lemma StepListForStatus(cfg: Config, k: string, l: Local, c: Cluster, o: Outcome)
    requires l.ListForStatus? && Ok(c, k, l)
    ensures var (l', c') := Step(cfg, k, l, c, o); Ok(c', k, l')
  {
  }

  lemma StepWriteStatus(cfg: Config, k: string, l: Local, c: Cluster, o: Outcome)
    requires l.WriteStatus? && Ok(c, k, l)
    ensures var (l', c') := Step(cfg, k, l, c, o); Ok(c', k, l')
  {
    var c' := Step(cfg, k, l, c, o).1;
    if !o.Refused? && Current(c, k, l.s) {
      NamespaceAfterSession(c, c', k);
    }
  }

  // ---------------------------------------------------------------- restarting pods

  lemma {:induction false} LiveNamesAre(pods: seq<Pod>)
    ensures forall n :: n in LiveNames(pods)
              <==> exists i :: 0 <= i < |pods| && !pods[i].terminating && pods[i].name == n
    ensures DistinctPods(pods) ==> DistinctStrings(LiveNames(pods))
    decreases |pods|
  {
    if pods != [] {
      var front, last := pods[..|pods| - 1], pods[|pods| - 1];
      LiveNamesAre(front);
      var names := LiveNames(pods);
      forall n ensures n in names <==> exists i :: 0 <= i < |pods| && !pods[i].terminating && pods[i].name == n {
        if n in LiveNames(front) {
          var i :| 0 <= i < |front| && !front[i].terminating && front[i].name == n;
          assert !pods[i].terminating && pods[i].name == n;
        }
        if i :| 0 <= i < |pods| && !pods[i].terminating && pods[i].name == n {
          if i < |front| { assert !front[i].terminating && front[i].name == n; }
        }
      }
      if DistinctPods(pods) && !last.terminating {
        forall n | n in LiveNames(front) ensures n != last.name {
          var i :| 0 <= i < |front| && !front[i].terminating && front[i].name == n;
          assert pods[i].name != pods[|pods| - 1].name;
        }
        forall i, j | 0 <= i < j < |names| ensures names[i] != names[j] {
          assert names[i] == LiveNames(front)[i] && LiveNames(front)[i] in LiveNames(front);
        }
      }
    }
  }

  lemma StepListForRestart(cfg: Config, k: string, l: Local, c: Cluster, o: Outcome)
    requires l.ListForRestart? && Ok(c, k, l)
    ensures var (l', c') := Step(cfg, k, l, c, o); Ok(c', k, l')
  {
    var pods := PodsAt(c, k);
    LiveNamesAre(pods);
    assert PodsOk(pods, c.nextUid);
    forall i | 0 <= i < |pods| && pods[i].name in LiveNames(pods) ensures pods[i].deletes == 0 {
      var j :| 0 <= j < |pods| && !pods[j].terminating && pods[j].name == pods[i].name;
      assert i == j;
      assert PodOk(pods[i], c.nextUid);
    }
  }

  lemma MarkPodDeletedOk(pods: seq<Pod>, name: string, nextUid: Uid)
    requires PodsOk(pods, nextUid) && NotYetDeleted(pods, [name])
    ensures PodsOk(MarkPodDeleted(pods, name), nextUid)
    ensures forall objects, uid :: PodsGuarded(pods, objects, uid)
              ==> PodsGuarded(MarkPodDeleted(pods, name), objects, uid)
  {
    var after := MarkPodDeleted(pods, name);
    forall i | 0 <= i < |after| ensures PodOk(after[i], nextUid) {
      assert PodOk(pods[i], nextUid);
    }
    forall objects, uid | PodsGuarded(pods, objects, uid) ensures PodsGuarded(after, objects, uid) {
      forall i | 0 <= i < |after| && after[i].birth.uid == uid ensures Guarded(objects, uid, after[i].birth.capped) {
        assert pods[i].birth == after[i].birth;
      }
    }
  }

  /** One delete call, applied or not, reported or not: what is still alive was listed and
      not reached yet, or its call reported an error. */
  lemma DeleteProgress(pods: seq<Pod>, names: seq<string>, failed: set<string>, applied: bool, ok: bool)
    requires names != [] && DistinctStrings(names) && (ok ==> applied)
    requires LiveWithin(pods, names, failed) && NotYetDeleted(pods, names)
    ensures var after := if applied then MarkPodDeleted(pods, names[0]) else pods;
      && LiveWithin(after, names[1..], if ok then failed else failed + {names[0]})
      && NotYetDeleted(after, names[1..]) && DistinctStrings(names[1..])
  {
    var name, rest := names[0], names[1..];
    var after := if applied then MarkPodDeleted(pods, name) else pods;
    assert names == [name] + rest && name !in rest;
    forall i | 0 <= i < |after| && !after[i].terminating
      ensures after[i].name in rest || after[i].name in (if ok then failed else failed + {name})
    {
      assert pods[i].name == after[i].name && !pods[i].terminating;
    }
    forall i | 0 <= i < |after| && after[i].name in rest ensures after[i].deletes == 0 {
      assert pods[i].name in names;
    }
  }

  lemma DeletePodOk(c: Cluster, k: string, s: Session, name: string, o: Outcome)
    requires SessionOk(c, k) && NamespaceOk(c, k) && Pinned(c, k, s)
    requires NotYetDeleted(PodsAt(c, k), [name])
    ensures var c' := DeletePod(c, k, name, o).0;
      SessionOk(c', k) && NamespaceOk(c', k) && Pinned(c', k, s)
    ensures PodsAt(DeletePod(c, k, name, o).0, k)
      == if o.Refused? then PodsAt(c, k) else MarkPodDeleted(PodsAt(c, k), name)
  {
    if NamespaceAt(c, k).Some? && !o.Refused? {
      var n := NamespaceAt(c, k).value;
      MarkPodDeletedOk(n.pods, name, c.nextUid);
      assert NamespaceAt(DeletePod(c, k, name, o).0, k) == Some(n.(pods := MarkPodDeleted(n.pods, name)));
      assert BirthsOrdered(c, k, n.(pods := MarkPodDeleted(n.pods, name)));
    }
  }

  lemma DeletingOk(c: Cluster, k: string, s: Session, names: seq<string>, failed: set<string>)
    requires Pinned(c, k, s) && !s.deleting && RestartPending(s)
    requires LiveWithin(PodsAt(c, k), names, failed) && NotYetDeleted(PodsAt(c, k), names) && DistinctStrings(names)
    ensures LocalOk(c, k, Deleting(s, names, failed))
  {
  }

  lemma StepDeletePods(cfg: Config, k: string, l: Local, c: Cluster, o: Outcome)
    requires l.DeletePods? && Ok(c, k, l)
    ensures var (l', c') := Step(cfg, k, l, c, o); Ok(c', k, l')
  {
    if l.pods != [] {
      var (c', ok) := DeletePod(c, k, l.pods[0], o);
      DeletePodOk(c, k, l.s, l.pods[0], o);
      DeleteProgress(PodsAt(c, k), l.pods, l.failed, !o.Refused?, o.Done?);
      DeletingOk(c', k, l.s, l.pods[1..], if ok then l.failed else l.failed + {l.pods[0]});
    }
  }

  // -------------------------------------------------------------- setup and work calls

  lemma SettingUpOk(cfg: Config, c: Cluster, k: string, s: Session, space: Space, todo: seq<Action>)
    requires Pinned(c, k, s) && !s.deleting && AllSound(todo) && Ordered(space, todo) && SetUp(c, k, s, space, todo)
    ensures LocalOk(c, k, SettingUp(cfg, s, space, todo))
  {
  }

  lemma StepSetup(cfg: Config, k: string, l: Local, c: Cluster, o: Outcome)
    requires l.Setup? && Ok(c, k, l)
    ensures var (l', c') := Step(cfg, k, l, c, o); Ok(c', k, l')
  {
    if l.todo != [] {
      var (c', ok) := Act(c, k, l.todo[0], WhoOf(l.s, l.space), o);
      ActOk(c, k, l.todo[0], l.s, l.space, o);
      ActSetUp(c, k, l.s, l.space, l.todo, o);
      if ok {
        assert AllSound(l.todo[1..]);
        SettingUpOk(cfg, c', k, l.s, l.space, l.todo[1..]);
      }
    }
  }

  lemma StepListForWork(cfg: Config, k: string, l: Local, c: Cluster, o: Outcome)
    requires l.ListForWork? && Ok(c, k, l)
    ensures var (l', c') := Step(cfg, k, l, c, o); Ok(c', k, l')
  {
    var l' := Step(cfg, k, l, c, o).0;
    if l'.Work? {
      WorkSound(cfg, k, l.s.userId, l.space, l'.svcs);
    }
  }

  lemma WorkingOk(c: Cluster, k: string, s: Session, space: Space, svcs: seq<LabService>, todo: seq<Action>, now: int)
    requires Pinned(c, k, s) && !s.deleting && AllSound(todo) && SetUp(c, k, s, space, [])
    requires forall a :: a in todo ==> !a.EnsureNamespace?
    ensures LocalOk(c, k, Working(s, space, svcs, todo, now))
  {
  }

  lemma StepWork(cfg: Config, k: string, l: Local, c: Cluster, o: Outcome)
    requires l.Work? && Ok(c, k, l)
    ensures var (l', c') := Step(cfg, k, l, c, o); Ok(c', k, l')
  {
    if l.todo != [] {
      var c' := Act(c, k, l.todo[0], WhoOf(l.s, l.space), o).0;
      assert l.todo[0] in l.todo;
      ActOk(c, k, l.todo[0], l.s, l.space, o);
      ActKeepsSetUp(c, k, l.s, l.space, l.todo[0], o);
      WorkingOk(c', k, l.s, l.space, l.svcs, l.todo[1..], c'.clock);
    }
  }

  /** The calls by kind. */
  predicate DeletionCall(l: Local) {
    l.Cleanup? || l.DropFinalizer? || l.PutFinalizer? || l.Expire?
  }

  predicate RestartCall(l: Local) {
    l.ListForRestart? || l.DeletePods? || l.MarkHandled? || l.RestartStatus?
  }

  predicate WorkCall(l: Local) {
    l.Setup? || l.ListForWork? || l.Work? || l.ListForStatus?
  }

  lemma DeletionCallOk(cfg: Config, k: string, l: Local, c: Cluster, o: Outcome)
    requires Ok(c, k, l) && DeletionCall(l)
    ensures var (l', c') := Step(cfg, k, l, c, o); Ok(c', k, l')
  {
    match l
    case Cleanup(_) => StepCleanup(cfg, k, l, c, o);
    case DropFinalizer(_, _) => StepDropFinalizer(cfg, k, l, c, o);
    case PutFinalizer(_) => StepPutFinalizer(cfg, k, l, c, o);
    case Expire(_) => StepExpire(cfg, k, l, c, o);
  }

  lemma RestartCallOk(cfg: Config, k: string, l: Local, c: Cluster, o: Outcome)
    requires Ok(c, k, l) && RestartCall(l)
    ensures var (l', c') := Step(cfg, k, l, c, o); Ok(c', k, l')
  {
    match l
    case ListForRestart(_) => StepListForRestart(cfg, k, l, c, o);
    case DeletePods(_, _, _) => StepDeletePods(cfg, k, l, c, o);
    case MarkHandled(_, _) => StepMarkHandled(cfg, k, l, c, o);
    case RestartStatus(_) => StepRestartStatus(cfg, k, l, c, o);
  }

  lemma WorkCallOk(cfg: Config, k: string, l: Local, c: Cluster, o: Outcome)
    requires Ok(c, k, l) && WorkCall(l)
    ensures var (l', c') := Step(cfg, k, l, c, o); Ok(c', k, l')
  {
    match l
    case Setup(_, _, _) => StepSetup(cfg, k, l, c, o);
    case ListForWork(_, _) => StepListForWork(cfg, k, l, c, o);
    case Work(_, _, _, _) => StepWork(cfg, k, l, c, o);
    case ListForStatus(_, _, _, _) => StepListForStatus(cfg, k, l, c, o);
  }

  lemma OtherCallOk(cfg: Config, k: string, l: Local, c: Cluster, o: Outcome)
    requires Ok(c, k, l) && !DeletionCall(l) && !RestartCall(l) && !WorkCall(l)
    ensures var (l', c') := Step(cfg, k, l, c, o); Ok(c', k, l')
  {
    match l
    case Idle(_) =>
    case Begin => StepBegin(cfg, k, c, o);
    case FetchSpace(_) => StepFetchSpace(cfg, k, l, c, o);
    case WriteStatus(_) => StepWriteStatus(cfg, k, l, c, o);
  }

  /** Every call of the reconcile of k, whatever its outcome, keeps session k in order. */
  lemma StepOk(cfg: Config, k: string, l: Local, c: Cluster, o: Outcome)
    requires Ok(c, k, l)
    ensures var (l', c') := Step(cfg, k, l, c, o); Ok(c', k, l')
  {
    if DeletionCall(l) {
      DeletionCallOk(cfg, k, l, c, o);
    } else if RestartCall(l) {
      RestartCallOk(cfg, k, l, c, o);
    } else if WorkCall(l) {
      WorkCallOk(cfg, k, l, c, o);
    } else {
      OtherCallOk(cfg, k, l, c, o);
    }
  }

  // --------------------------------------------------------------------- elsewhere

  /** Nothing but session k and its namespace differs. */
  predicate Confined(c: Cluster, c': Cluster, k: string) {
    && c'.nextUid == c.nextUid && c.leaked <= c'.leaked && c'.clock == c.clock
    && c'.spaces == c.spaces && c'.services == c.services
    && c'.sessions - {k} == c.sessions - {k}
    && c'.namespaces - {NamespaceOf(k)} == c.namespaces - {NamespaceOf(k)}
  }

  lemma ConfinedElsewhere(c: Cluster, c': Cluster, k: string, other: string)
    requires Confined(c, c', other) && k != other
    ensures SameAt(c, c', k)
  {
    NamespacesDistinct(k, other);
    assert k in c.sessions <==> k in c.sessions - {other};
    assert k in c'.sessions <==> k in c'.sessions - {other};
    assert k in c.sessions ==> c.sessions[k] == (c.sessions - {other})[k];
    assert k in c'.sessions ==> c'.sessions[k] == (c'.sessions - {other})[k];
    var ns, o := NamespaceOf(k), NamespaceOf(other);
    assert ns in c.namespaces <==> ns in c.namespaces - {o};
    assert ns in c'.namespaces <==> ns in c'.namespaces - {o};
    assert ns in c.namespaces ==> c.namespaces[ns] == (c.namespaces - {o})[ns];
    assert ns in c'.namespaces ==> c'.namespaces[ns] == (c'.namespaces - {o})[ns];
  }

  lemma StoreConfined(c: Cluster, k: string, s: Session, ns: Option<Namespace>)
    ensures Confined(c, StoreSession(c, k, s), k)
    ensures Confined(c, WithNamespace(c, k, ns), k)
  {
    assert StoreSession(c, k, s).sessions - {k} == c.sessions - {k};
    assert WithNamespace(c, k, ns).namespaces - {NamespaceOf(k)} == c.namespaces - {NamespaceOf(k)};
  }

  lemma SessionCallsConfined(c: Cluster, k: string, s: Session, o: Outcome)
    ensures Confined(c, UpdateSession(c, k, s, o).0, k)
    ensures Confined(c, UpdateStatus(c, k, s, o).0, k)
    ensures Confined(c, DeleteSession(c, k, o).0, k)
    ensures Confined(c, MarkSessionDeleted(c, k), k)
  {
    forall t ensures Confined(c, StoreSession(c, k, t), k) {
      StoreConfined(c, k, t, None);
    }
  }

  lemma NamespaceCallsConfined(c: Cluster, k: string, a: Action, who: Birth, name: string, o: Outcome)
    ensures Confined(c, DeleteNamespace(c, k, o).0, k)
    ensures Confined(c, Act(c, k, a, who, o).0, k)
    ensures Confined(c, DeletePod(c, k, name, o).0, k)
  {
    forall ns ensures Confined(c, WithNamespace(c, k, ns), k) {
      if k in c.sessions {
        StoreConfined(c, k, c.sessions[k], ns);
      } else {
        assert WithNamespace(c, k, ns).namespaces - {NamespaceOf(k)} == c.namespaces - {NamespaceOf(k)};
      }
    }
  }

  /** The calls that can change session objects. */
  predicate WritesSession(l: Local) {
    l.DropFinalizer? || l.PutFinalizer? || l.Expire? || l.MarkHandled? || l.RestartStatus? || l.WriteStatus?
  }

  lemma UpdatesConfined(cfg: Config, k: string, l: Local, c: Cluster, o: Outcome)
    requires l.DropFinalizer? || l.PutFinalizer? || l.MarkHandled?
    ensures Confined(c, Step(cfg, k, l, c, o).1, k)
  {
    match l
    case DropFinalizer(s, _) => SessionCallsConfined(c, k, s.(finalizer := false), o);
    case PutFinalizer(s) => SessionCallsConfined(c, k, s.(finalizer := true), o);
    case MarkHandled(s, _) => SessionCallsConfined(c, k, s.(handled := s.requested), o);
  }

  lemma WritesConfined(cfg: Config, k: string, l: Local, c: Cluster, o: Outcome)
    requires WritesSession(l)
    ensures Confined(c, Step(cfg, k, l, c, o).1, k)
  {
    match l
    case Expire(s) => SessionCallsConfined(c, k, s, o);
    case RestartStatus(s) => SessionCallsConfined(c, k, s.(status := RestartingStatus(s.status)), o);
    case WriteStatus(s) => SessionCallsConfined(c, k, s, o);
    case _ => UpdatesConfined(cfg, k, l, c, o);
  }

  /** The other calls leave every session object, the clock and the identities alone. */
  lemma OthersKeepSessions(cfg: Config, k: string, l: Local, c: Cluster, o: Outcome)
    requires !WritesSession(l)
    ensures var c' := Step(cfg, k, l, c, o).1;
      c'.sessions == c.sessions && c'.nextUid == c.nextUid && c'.clock == c.clock
  {
  }

  /** A call for one session touches no other session and no other namespace. */
  lemma StepConfined(cfg: Config, k: string, l: Local, c: Cluster, o: Outcome)
    ensures Confined(c, Step(cfg, k, l, c, o).1, k)
  {
    match l
    case Setup(s, space, todo) =>
      if todo != [] { NamespaceCallsConfined(c, k, todo[0], WhoOf(s, space), "", o); }
    case Work(s, space, _, todo) =>
      if todo != [] { NamespaceCallsConfined(c, k, todo[0], WhoOf(s, space), "", o); }
    case DeletePods(s, pods, _) =>
      if pods != [] { NamespaceCallsConfined(c, k, EnsureNamespace, Birth(0, false), pods[0], o); }
    case Cleanup(_) => NamespaceCallsConfined(c, k, EnsureNamespace, Birth(0, false), "", o);
    case _ =>
      if WritesSession(l) { WritesConfined(cfg, k, l, c, o); }
  }

  predicate Touches(e: EnvStep, k: string) {
    match e
    case Tick(_) => false
    case UserCreates(n, _, _, _, _) => n == k
    case UserDeletes(n) => n == k
    case UserRestarts(n, _) => n == k
    case UserEdits(n, _, _) => n == k
    case SpacesChange(_) => false
    case ServicesChange(_) => false
    case PodReports(n, _, _) => n == k
    case PodTerminates(n, _) => n == k
    case PodRemoved(n, _) => n == k
    case ObjectPurged(n, _) => n == k
    case ObjectCollected(n, _) => n == k
    case NamespaceRemoved(n) => n == k
  }

  lemma EnvElsewhere(c: Cluster, e: EnvStep, k: string)
    requires !Touches(e, k)
    ensures var c' := EnvApply(c, e);
      SameAt(c, c', k) && c.nextUid <= c'.nextUid && c.leaked == c'.leaked && c.clock <= c'.clock
  {
    match e
    case Tick(_) =>
    case UserCreates(n, _, _, _, _) => NamespacesDistinct(k, n);
    case UserDeletes(n) => NamespacesDistinct(k, n);
    case UserRestarts(n, _) => NamespacesDistinct(k, n);
    case UserEdits(n, _, _) => NamespacesDistinct(k, n);
    case SpacesChange(_) =>
    case ServicesChange(_) =>
    case PodReports(n, _, _) => NamespacesDistinct(k, n);
    case PodTerminates(n, _) => NamespacesDistinct(k, n);
    case PodRemoved(n, _) => NamespacesDistinct(k, n);
    case ObjectPurged(n, _) => NamespacesDistinct(k, n);
    case ObjectCollected(n, _) => NamespacesDistinct(k, n);
    case NamespaceRemoved(n) => NamespacesDistinct(k, n);
  }

  // ------------------------------------------------------------------ environment

  /** Changing pods without touching identity, birth or delete counts. */
  predicate Milder(after: seq<Pod>, before: seq<Pod>) {
    && |after| == |before|
    && forall i :: 0 <= i < |after| ==>
         after[i].name == before[i].name && after[i].birth == before[i].birth && after[i].deletes == before[i].deletes
         && (before[i].terminating ==> after[i].terminating)
  }

  lemma MilderPods(after: seq<Pod>, before: seq<Pod>, nextUid: Uid)
    requires Milder(after, before) && PodsOk(before, nextUid)
    ensures PodsOk(after, nextUid)
    ensures forall objects, uid :: PodsGuarded(before, objects, uid) ==> PodsGuarded(after, objects, uid)
  {
    forall i | 0 <= i < |after| ensures PodOk(after[i], nextUid) {
      assert PodOk(before[i], nextUid);
    }
    forall objects, uid | PodsGuarded(before, objects, uid) ensures PodsGuarded(after, objects, uid) {
      forall i | 0 <= i < |after| && after[i].birth.uid == uid ensures Guarded(objects, uid, after[i].birth.capped) {
        assert before[i].birth == after[i].birth;
      }
    }
  }

  lemma PodsChangeNamespace(c: Cluster, k: string, pods: seq<Pod>)
    requires NamespaceOk(c, k) && Milder(pods, PodsAt(c, k))
    ensures NamespaceOk(WithPods(c, k, pods), k)
  {
    if NamespaceAt(c, k).Some? {
      var n := NamespaceAt(c, k).value;
      assert NamespaceAt(WithPods(c, k, pods), k) == Some(n.(pods := pods));
      MilderPods(pods, n.pods, c.nextUid);
      assert BirthsOrdered(c, k, n.(pods := pods));
    }
  }

  lemma PodsChangeOk(c: Cluster, k: string, l: Local, pods: seq<Pod>)
    requires Ok(c, k, l) && Milder(pods, PodsAt(c, k))
    ensures Ok(WithPods(c, k, pods), k, l)
  {
    PodsChangeNamespace(c, k, pods);
    if NamespaceAt(c, k).Some? {
      assert NamespaceAt(WithPods(c, k, pods), k) == Some(NamespaceAt(c, k).value.(pods := pods));
    }
  }

  lemma PodChangeOk(c: Cluster, k: string, l: Local, at: nat, p: Pod)
    requires Ok(c, k, l) && at < |PodsAt(c, k)|
    requires var q := PodsAt(c, k)[at];
      p.name == q.name && p.birth == q.birth && p.deletes == q.deletes && (q.terminating ==> p.terminating)
    ensures Ok(WithPods(c, k, PodsAt(c, k)[at := p]), k, l)
  {
    PodsChangeOk(c, k, l, PodsAt(c, k)[at := p]);
  }

  predicate Within(pods: seq<Pod>, before: seq<Pod>) {
    DistinctPods(pods) && forall i :: 0 <= i < |pods| ==> pods[i] in before
  }

  lemma FewerPods(pods: seq<Pod>, before: seq<Pod>, nextUid: Uid)
    requires Within(pods, before) && PodsOk(before, nextUid)
    ensures PodsOk(pods, nextUid)
    ensures forall objects, uid :: PodsGuarded(before, objects, uid) ==> PodsGuarded(pods, objects, uid)
    ensures forall uid :: NoneBornTo(before, uid) ==> NoneBornTo(pods, uid)
  {
    forall i | 0 <= i < |pods| ensures PodOk(pods[i], nextUid) {
      var j :| 0 <= j < |before| && before[j] == pods[i];
    }
    forall objects, uid | PodsGuarded(before, objects, uid) ensures PodsGuarded(pods, objects, uid) {
      forall i | 0 <= i < |pods| && pods[i].birth.uid == uid ensures Guarded(objects, uid, pods[i].birth.capped) {
        var j :| 0 <= j < |before| && before[j] == pods[i];
      }
    }
  }

  lemma FewerNamespaceOk(c: Cluster, k: string, pods: seq<Pod>)
    requires NamespaceOk(c, k) && Within(pods, PodsAt(c, k))
    ensures NamespaceOk(WithPods(c, k, pods), k)
  {
    if NamespaceAt(c, k).Some? {
      var n := NamespaceAt(c, k).value;
      FewerPods(pods, n.pods, c.nextUid);
      assert NamespaceAt(WithPods(c, k, pods), k) == Some(n.(pods := pods));
      assert BirthsOrdered(c, k, n.(pods := pods));
    }
  }

  lemma FewerLocalOk(c: Cluster, k: string, l: Local, pods: seq<Pod>)
    requires LocalOk(c, k, l) && Within(pods, PodsAt(c, k))
    ensures LocalOk(WithPods(c, k, pods), k, l)
  {
    if NamespaceAt(c, k).Some? {
      var n := NamespaceAt(c, k).value;
      assert NamespaceAt(WithPods(c, k, pods), k) == Some(n.(pods := pods));
    }
  }

  lemma PodRemovalOk(c: Cluster, k: string, l: Local, at: nat)
    requires Ok(c, k, l) && at < |PodsAt(c, k)|
    ensures Ok(WithPods(c, k, PodsAt(c, k)[..at] + PodsAt(c, k)[at + 1..]), k, l)
  {
    var before := PodsAt(c, k);
    var pods := before[..at] + before[at + 1..];
    assert DistinctPods(before);
    assert Within(pods, before) by {
      forall i | 0 <= i < |pods| ensures pods[i] == before[if i < at then i else i + 1] {}
    }
    FewerNamespaceOk(c, k, pods);
    FewerLocalOk(c, k, l, pods);
  }

  /** The object may go: the namespace is being torn down, or the owner is no more. */
  predicate Collectable(c: Cluster, k: string, key: Key) {
    && NamespaceAt(c, k).Some?
    && (NamespaceAt(c, k).value.terminating
        || (key in NamespaceAt(c, k).value.objects && NamespaceAt(c, k).value.objects[key].owner.Some?
            && !OwnerAlive(c, k, NamespaceAt(c, k).value.objects[key].owner.value)))
  }

  function WithoutObject(c: Cluster, k: string, key: Key): Cluster
    requires NamespaceAt(c, k).Some?
  {
    WithNamespace(c, k, Some(NamespaceAt(c, k).value.(objects := NamespaceAt(c, k).value.objects - {key})))
  }

  lemma ObjectRemovalNamespace(c: Cluster, k: string, key: Key)
    requires NamespaceOk(c, k) && Collectable(c, k, key)
    ensures NamespaceOk(WithoutObject(c, k, key), k)
  {
    var n := NamespaceAt(c, k).value;
    assert NamespaceAt(WithoutObject(c, k, key), k) == Some(n.(objects := n.objects - {key}));
    if !n.terminating && k in c.sessions {
      forall i | 0 <= i < |n.pods| && n.pods[i].birth.uid == c.sessions[k].uid
        ensures Guarded(n.objects - {key}, c.sessions[k].uid, n.pods[i].birth.capped)
      {
        assert Guarded(n.objects, c.sessions[k].uid, n.pods[i].birth.capped);
      }
    }
  }

  lemma ObjectRemovalLocal(c: Cluster, k: string, l: Local, key: Key)
    requires Ok(c, k, l) && Collectable(c, k, key)
    ensures LocalOk(WithoutObject(c, k, key), k, l)
  {
    var n := NamespaceAt(c, k).value;
    assert NamespaceAt(WithoutObject(c, k, key), k) == Some(n.(objects := n.objects - {key}));
    assert PodsAt(WithoutObject(c, k, key), k) == PodsAt(c, k);
  }

  /** Dropping an object that is not a pillar of the live incarnation. */
  lemma ObjectRemovalOk(c: Cluster, k: string, l: Local, key: Key)
    requires Ok(c, k, l) && Collectable(c, k, key)
    ensures Ok(WithoutObject(c, k, key), k, l)
  {
    ObjectRemovalNamespace(c, k, key);
    ObjectRemovalLocal(c, k, l, key);
  }

  lemma SessionEditOk(c: Cluster, k: string, l: Local, t: Session)
    requires Ok(c, k, l) && k in c.sessions
    requires var s := c.sessions[k];
      t.uid == s.uid && t.finalizer == s.finalizer && t.deleting == s.deleting && t.status == s.status
        && t.version == s.version + 1
    requires t.history.restarts + (if RestartPending(t) then 1 else 0) <= t.history.bumps
    ensures Ok(c.(sessions := c.sessions[k := t]), k, l)
  {
    NamespaceAfterSession(c, c.(sessions := c.sessions[k := t]), k);
    assert PodsAt(c.(sessions := c.sessions[k := t]), k) == PodsAt(c, k);
  }

  lemma UserCreatesOk(c: Cluster, k: string, l: Local, userId: string, spaceRef: string, finalizer: bool,
                      requested: string)
    requires Ok(c, k, l)
    ensures Ok(EnvApply(c, UserCreates(k, userId, spaceRef, finalizer, requested)), k, l)
  {
    var c' := EnvApply(c, UserCreates(k, userId, spaceRef, finalizer, requested));
    assert NamespaceAt(c', k) == NamespaceAt(c, k);
    if k !in c.sessions && NamespaceAt(c, k).Some? {
      var n := NamespaceAt(c, k).value;
      forall i | 0 <= i < |n.pods| ensures PodOk(n.pods[i], c'.nextUid) && n.pods[i].birth.uid != c.nextUid {
        assert PodOk(n.pods[i], c.nextUid);
      }
    }
  }

  lemma UserDeletesOk(c: Cluster, k: string, l: Local)
    requires Ok(c, k, l)
    ensures Ok(EnvApply(c, UserDeletes(k)), k, l)
  {
    var c' := EnvApply(c, UserDeletes(k));
    if k in c.sessions && !c.sessions[k].deleting {
      assert PodsAt(c', k) == PodsAt(c, k);
      if c.sessions[k].finalizer {
        NamespaceAfterSession(c, c', k);
      } else {
        NamespaceAfterRemoval(c, c', k);
      }
    }
  }

  lemma UserRestartsOk(c: Cluster, k: string, l: Local, value: string)
    requires Ok(c, k, l)
    ensures Ok(EnvApply(c, UserRestarts(k, value)), k, l)
  {
    if k in c.sessions {
      var s := c.sessions[k];
      SessionEditOk(c, k, l, s.(requested := value, version := s.version + 1,
                                history := s.history.(bumps := s.history.bumps + 1)));
    }
  }

  lemma UserEditsOk(c: Cluster, k: string, l: Local, userId: string, spaceRef: string)
    requires Ok(c, k, l)
    ensures Ok(EnvApply(c, UserEdits(k, userId, spaceRef)), k, l)
  {
    if k in c.sessions {
      var s := c.sessions[k];
      SessionEditOk(c, k, l, s.(userId := userId, spaceRef := spaceRef, version := s.version + 1));
    }
  }

  lemma PodReportsOk(c: Cluster, k: string, l: Local, i: nat, status: PodStatus)
    requires Ok(c, k, l)
    ensures Ok(EnvApply(c, PodReports(k, i, status)), k, l)
  {
    if i < |PodsAt(c, k)| {
      PodChangeOk(c, k, l, i, PodsAt(c, k)[i].(status := status));
    }
  }

  lemma PodTerminatesOk(c: Cluster, k: string, l: Local, i: nat)
    requires Ok(c, k, l)
    ensures Ok(EnvApply(c, PodTerminates(k, i)), k, l)
  {
    if i < |PodsAt(c, k)| {
      PodChangeOk(c, k, l, i, PodsAt(c, k)[i].(terminating := true));
    }
  }

  lemma PodRemovedOk(c: Cluster, k: string, l: Local, i: nat)
    requires Ok(c, k, l)
    ensures Ok(EnvApply(c, PodRemoved(k, i)), k, l)
  {
    if i < |PodsAt(c, k)| {
      PodRemovalOk(c, k, l, i);
    }
  }

  lemma EnvObjectsOk(c: Cluster, k: string, l: Local, e: EnvStep)
    requires Ok(c, k, l)
    requires (e.ObjectPurged? || e.ObjectCollected?) && e.k == k
    ensures Ok(EnvApply(c, e), k, l)
  {
    if EnvApply(c, e) != c {
      ObjectRemovalOk(c, k, l, e.key);
    }
  }

  lemma EnvRemovedOk(c: Cluster, k: string, l: Local)
    requires Ok(c, k, l)
    ensures Ok(EnvApply(c, NamespaceRemoved(k)), k, l)
  {
    assert NamespaceAt(WithNamespace(c, k, None), k).None?;
    assert PodsAt(WithNamespace(c, k, None), k) == [];
  }

  predicate SessionEvent(e: EnvStep) {
    e.UserCreates? || e.UserDeletes? || e.UserRestarts? || e.UserEdits?
  }

  predicate PodEvent(e: EnvStep) {
    e.PodReports? || e.PodTerminates? || e.PodRemoved?
  }

  lemma SessionEventOk(c: Cluster, k: string, l: Local, e: EnvStep)
    requires Ok(c, k, l) && SessionEvent(e) && e.k == k
    ensures Ok(EnvApply(c, e), k, l)
  {
    match e
    case UserCreates(_, userId, spaceRef, finalizer, requested) =>
      UserCreatesOk(c, k, l, userId, spaceRef, finalizer, requested);
    case UserDeletes(_) => UserDeletesOk(c, k, l);
    case UserRestarts(_, value) => UserRestartsOk(c, k, l, value);
    case UserEdits(_, userId, spaceRef) => UserEditsOk(c, k, l, userId, spaceRef);
  }

  lemma PodEventOk(c: Cluster, k: string, l: Local, e: EnvStep)
    requires Ok(c, k, l) && PodEvent(e) && e.k == k
    ensures Ok(EnvApply(c, e), k, l)
  {
    match e
    case PodReports(_, i, status) => PodReportsOk(c, k, l, i, status);
    case PodTerminates(_, i) => PodTerminatesOk(c, k, l, i);
    case PodRemoved(_, i) => PodRemovedOk(c, k, l, i);
  }

  /** Every step of the environment keeps session k in order. */
  lemma EnvOk(c: Cluster, k: string, l: Local, e: EnvStep)
    requires Ok(c, k, l)
    ensures Ok(EnvApply(c, e), k, l)
  {
    if !Touches(e, k) {
      EnvElsewhere(c, e, k);
      OkElsewhere(c, EnvApply(c, e), k, l);
    } else if SessionEvent(e) {
      SessionEventOk(c, k, l, e);
    } else if PodEvent(e) {
      PodEventOk(c, k, l, e);
    } else if e.NamespaceRemoved? {
      EnvRemovedOk(c, k, l);
    } else {
      EnvObjectsOk(c, k, l, e);
    }
  }

  // -------------------------------------------------------------------- every run

  ghost predicate Inv(g: System) {
    && DistinctNames(g.cluster.services)
    && forall k :: Ok(g.cluster, k, LocalOf(g, k))
  }

  lemma CtlInv(cfg: Config, g: System, other: string, o: Outcome, k: string)
    requires Inv(g)
    ensures var g' := Next(cfg, g, Ctl(other, o)); Ok(g'.cluster, k, LocalOf(g', k))
    ensures DistinctNames(Next(cfg, g, Ctl(other, o)).cluster.services)
  {
    var l := Started(LocalOf(g, other));
    var c' := Step(cfg, other, l, g.cluster, o).1;
    assert Ok(g.cluster, k, LocalOf(g, k));
    StepConfined(cfg, other, l, g.cluster, o);
    if other == k {
      StepOk(cfg, k, l, g.cluster, o);
    } else {
      ConfinedElsewhere(g.cluster, c', k, other);
      OkElsewhere(g.cluster, c', k, LocalOf(g, k));
    }
  }

  lemma NextOk(cfg: Config, g: System, move: Move, k: string)
    requires Inv(g)
    ensures Ok(Next(cfg, g, move).cluster, k, LocalOf(Next(cfg, g, move), k))
  {
    assert Ok(g.cluster, k, LocalOf(g, k));
    match move
    case Ctl(other, o) => CtlInv(cfg, g, other, o, k);
    case Crash(_) =>
    case Env(e) => EnvOk(g.cluster, k, LocalOf(g, k), e);
  }

  lemma NextServices(cfg: Config, g: System, move: Move)
    requires Inv(g)
    ensures DistinctNames(Next(cfg, g, move).cluster.services)
  {
    if move.Ctl? {
      CtlInv(cfg, g, move.k, move.outcome, move.k);
    }
  }

  lemma NextInv(cfg: Config, g: System, move: Move)
    requires Inv(g)
    ensures Inv(Next(cfg, g, move))
  {
    var g' := Next(cfg, g, move);
    forall k ensures Ok(g'.cluster, k, LocalOf(g', k)) {
      NextOk(cfg, g, move, k);
    }
    NextServices(cfg, g, move);
  }

  /** The invariants hold after every run from the empty store: any interleaving of
      reconciles of any sessions, call outcomes, crashes and environment steps. */
  lemma {:induction false} RunInv(cfg: Config, moves: seq<Move>)
    ensures Inv(Run(cfg, START, moves))
    decreases |moves|
  {
    if moves != [] {
      RunInv(cfg, moves[..|moves| - 1]);
      NextInv(cfg, Run(cfg, START, moves[..|moves| - 1]), moves[|moves| - 1]);
    }
  }

  lemma {:induction false} EnvRunOk(c: Cluster, k: string, l: Local, steps: seq<EnvStep>)
    requires Ok(c, k, l)
    ensures Ok(EnvRun(c, steps), k, l)
    decreases |steps|
  {
    if steps != [] {
      EnvOk(c, k, l, steps[0]);
      EnvRunOk(EnvApply(c, steps[0]), k, l, steps[1..]);
    }
  }

  /** A whole reconcile, with any environment steps between its calls, keeps the invariants. */
  lemma {:induction false} DriveOk(cfg: Config, k: string, l: Local, c: Cluster, turns: nat -> Turn, i: nat)
    requires Ok(c, k, l)
    ensures var (l', c', _) := Drive(cfg, k, l, c, turns, i); l'.Idle? && Ok(c', k, l')
    decreases Stage(l), Remaining(l)
  {
    if !l.Idle? {
      var c1 := EnvRun(c, turns(i).env);
      EnvRunOk(c, k, l, turns(i).env);
      StepOk(cfg, k, l, c1, turns(i).outcome);
      StepProgress(cfg, k, l, c1, turns(i).outcome);
      var (l', c') := Step(cfg, k, l, c1, turns(i).outcome);
      DriveOk(cfg, k, l', c', turns, i + 1);
    }
  }
}
