# Verified model of the lab session and task controllers

The lab controller turns a `LabSession` into a namespace with network isolation, resource caps, a
desktop pod and challenge pods, publishes addresses, restarts the pods on request and deletes the
session when its time is up. It does so by a `Reconcile` function that is run again and again and may
stop at any API call. This project models that function, and the smaller one for `CTFTask`, as
protocols over an API store, and proves what they promise over all runs.

## How it is built

- **Two forms of each reconciler.** `Protocol.Step` and `CtfTask.Step` make one API call at a time;
  each call may be refused, applied, or applied with its reply lost. `Reconciler.Reconcile` and
  `CtfTaskReconciler.Reconcile` are the imperative code: methods over a mutable server object and a
  mutable object in hand, with the loops of the original. They are proved equal to the big step
  `Drive`, and `ApiCalls.DriveIsRun` shows that a big step is a run of the protocol. The results about
  runs therefore apply to the imperative code.
- **Environment.** Between any two calls users create, edit, restart and delete, templates change, pods
  report, terminate and vanish, the namespace controller and the garbage collector remove things, and
  the clock moves.
- **Calls on the namespace** are values (`Actions.Action`) with an effect and an admission condition;
  a reconcile follows an ordered plan of them.
- **Egress rules** are a source language, Cilium policies a target language; both are given a meaning as
  sets of flows.

Modules, from the bottom: `Common`, `Names`, `Egress`, `Resources`, `Objects`, `Phases`, `Actions`,
`Plans`, `StatusSync`, `Protocol` (the machine), `Invariants`, `Preservation`, `Guarantees` and
`Interference` (all runs), `Reach` and `Selection` (traffic, and which pods a Service or policy selects),
`Attempts`, `Convergence`, `Settling` and `Timing` (retry, termination, expiry), `ApiCalls` (stretches of
calls), `Routes`, `Interleaved`, `AfterReconcile` and `Workload` (what a success leaves), `Outcomes` (what
one reconcile does in each state of a session), `Reconciler` (the imperative code), `CtfTask`,
`CtfTaskRuns` and `CtfTaskReconciler` (the second controller).

## Assumptions

- Reads are linearizable. An update of a session or its status is rejected unless it carries the stored
  identity and version. Reconciles of one session, or of one task, are serialized.
- Setting a controller reference follows the library the code uses (`SetControllerReference` of
  controller-runtime v0.23): an existing reference of the same kind and name is overwritten whatever
  its identity, and only one of another kind or name is refused. The library is not part of this model.
- No other program has a finalizer on a session, and users never take the controller's off.
- Identities are never reused. Nothing can be created in a terminating namespace.
- Only the controller creates pods and objects in session namespaces, and while the namespace stands
  objects there are removed by nobody but the collector and the namespace controller.
- The server lists pods and services in a stable order.
- Duration parsing, label selection, address-range membership, keyed hashing and flag formatting are
  uninterpreted functions. The clock, random draws and environment variables are inputs.
- Times are nanoseconds; the store keeps whole seconds.

`History` fields, `Birth`, `Pod.deletes` and `Cluster.leaked` are history variables: no branch depends on
them, they exist so that the results can be stated.

## Where the code differs from its description

The model follows the code.

- A comment says a leading `*.` selects a wildcard match; any `*` does (`Egress.DocumentedIff`).
- The checker container is added for the workspace type `Termnial`, which the CRD never admits.
- Exposures other than HTTP are published as addresses but get no route (`Routes.OnlyHttpRouted`).
- Endpoints are replaced only when their number changes, so an edit that keeps the number leaves stale
  addresses (`AfterReconcile.EndpointsFreshIff`, `AfterReconcile.UserEditLeavesStaleAddress`).
- Capping the requeue by the time left does not improve the lateness of deletion below a minute: at the
  expiry itself the time left is zero and the cap does not apply (`Timing.MinuteIsTight`).
- An author limit below a default request makes the pod inadmissible (`Resources.SmallLimitRejected`).
- An object that outlived its session or CTFTask is taken over by the next one of that name, pods and
  flags included (`AfterReconcile.LeftoversAdopted`, `CtfTaskRuns.PredecessorAdopted`).
- A service named like the workspace's route or Service overwrites it (`Routes.ServedAfterSuccess`).
- The repository's CTFTask tests expect phases `Active` and `Expired`, which are never written.
- A CTFTask whose name is taken over between read and delete loses its successor
  (`CtfTaskRuns.FreshTaskDeleted`).

## Model

| member | source | states |
|---|---|---|
| `Guarantees.CreationNeedsFinalizer` | `internal/controller/core/labsession_controller.go:165-259` | In every run, a call that makes a namespace or a pod belongs to a reconcile that read the session with its finalizer and without a deletion timestamp, and that finalizer is still stored |
| `Guarantees.LeavesAfterNamespaceDelete` | `internal/controller/core/labsession_controller.go:165-176` | A session leaves the store by the controller's hand only right after its namespace delete was issued: the namespace is gone or terminating, or that call reported an error |
| `Guarantees.NamespacesAccounted` | `internal/controller/core/labsession_controller.go:165-176` | In every run, a namespace nobody is removing belongs to the live session that made it, or that session's namespace delete reported an error |
| `Guarantees.IsolationBeforeWorkload` | `internal/controller/core/labsession_controller.go:199-259` | In every run with failures at any call, while a session is not being deleted, and even then until its namespace is torn down, every pod made for its current incarnation sits behind lab-baseline, and behind quota and limit range when the space that reconcile read sets resources |
| `Guarantees.OwnNamespaceIsolated` | `internal/controller/core/labsession_controller.go:199-259` | Under the same condition a namespace made for the current incarnation holds no unguarded pod |
| `Guarantees.UnguardedOnlyInOldNamespace` | `internal/controller/core/labsession_controller.go:165-259` | While a session is not being deleted, an unguarded pod in its namespace means that the namespace was made for an earlier incarnation and is being torn down, or its delete reported an error |
| `Guarantees.LeakedNamespaceUnguarded` | `internal/controller/core/labsession_controller.go:170-173` | The reported error is a real way there: from every settled session with a pod, an ignored namespace delete followed by re-creation leaves that pod running with no baseline |
| `Guarantees.TornDownNamespaceUnguarded` | `internal/controller/core/labsession_controller.go:165-176` | So is the tear-down, without any failed call: the namespace controller drops the baseline before the pods and the session is created again meanwhile |
| `Guarantees.HandledMeansRestarted` | `internal/controller/core/labsession_controller.go:438-465` | The handled annotation only ever takes the value that was read and is still requested, so a racing bump is never marked handled; every pod still alive then is one whose delete reported an error |
| `Guarantees.RestartsBounded` | `internal/controller/core/labsession_controller.go:438-465` | Completed restarts never exceed user writes of the request annotation, and no pod is effectively deleted twice |
| `Guarantees.DeletedOnRequest` | `internal/controller/core/labsession_controller.go:438-456` | The controller changes a pod only by deleting it, and only for a session whose request annotation it read as set and different from the handled one |
| `Guarantees.NeverDeletedEarly` | `internal/controller/core/labsession_controller.go:191-195` | The controller marks a session deleted only strictly after its stored expiry |
| `Guarantees.TimersFixed` | `internal/controller/core/labsession_controller.go:274-286` | Start and expiry are set together and nothing changes them afterwards |
| `Preservation.StepOk` | `internal/controller/core/labsession_controller.go:155-263` | Every call of the reconcile, refused, lost or done, keeps the invariants of its session, namespace and in-hand copy |
| `Preservation.EnvOk` | `internal/controller/core/labsession_controller.go:155-263` | So does every step of users, kubelet, namespace controller, collector and clock |
| `Preservation.RunInv` | `internal/controller/core/labsession_controller.go:155-263` | The invariants of all sessions hold after every run from the empty store |
| `Preservation.StepConfined` | `internal/controller/core/labsession_controller.go:168-262` | A call of one session touches no other session object and no other namespace |
| `Interference.SessionsDoNotInterfere` | `internal/controller/core/labsession_controller.go:168-262` | For every interleaving at call granularity, session k, its namespace and its reconcile end as if the calls of all other sessions had not happened |
| `Reach.RunsKeepSessionsApart` | `internal/controller/core/labsession_controller.go:467-536` | In every run, while a session is not being deleted, and even then until its namespace is torn down, a pod of its current incarnation can neither connect to nor be reached from a pod of another session |
| `Protocol.StepProgress` | `internal/controller/core/labsession_controller.go:155-263` | Every API call brings a reconcile strictly closer to its end |
| `ApiCalls.SetupStretch` | `internal/controller/core/labsession_controller.go:197-220` | The setup calls run in order up to the first that does not succeed, which ends the reconcile with an error |
| `ApiCalls.WorkStretch` | `internal/controller/core/labsession_controller.go:234-262` | The same for workspace and service calls; the status pass takes its time from the clock after the last of them |
| `ApiCalls.DeleteStretch` | `internal/controller/core/labsession_controller.go:448-454` | Restart issues one delete per listed live pod and ignores each result |
| `ApiCalls.DriveIsRun` | `internal/controller/core/labsession_controller.go:155-263` | A whole reconcile with its surroundings is a run of the system, so all run-level results hold at every point of it |
| `Convergence.CrashRetryConfluence` | `internal/controller/core/labsession_controller.go:197-262` | Live reconciles cut at any calls, any number of times: if a run after them succeeds, so does one uninterrupted run from the start, and both leave the same store up to clock values, versions and random draws; with no failing call it succeeds whenever the uninterrupted run does |
| `Convergence.SucceedsIff` | `internal/controller/core/labsession_controller.go:197-262` | With no failing call, a live reconcile succeeds exactly when every call of its plan is admissible in the namespace it finds |
| `Outcomes.SucceedsWhen` | `internal/controller/core/labsession_controller.go:197-262` | In the terms of templates and namespace: the selector parses, no HTTP service of a space with outside access lacks ports, no object it controls belongs to an owner of another kind or name, and in a namespace on its way out everything is there already |
| `Outcomes.FinalizerAdded` | `internal/controller/core/labsession_controller.go:178-182` | With no failing call, a session without the finalizer gets it and nothing else happens |
| `Outcomes.DeletionCompletes` | `internal/controller/core/labsession_controller.go:165-176` | A session being deleted leaves the store whatever its namespace delete reports; unless that call was refused, the namespace is absent or terminating |
| `Outcomes.ExpiredMarked` | `internal/controller/core/labsession_controller.go:191-195` | With no failing call, a session past its expiry is marked deleted and nothing is built for it |
| `Outcomes.RestartCompletes` | `internal/controller/core/labsession_controller.go:222-232` | With no failing call, a requested restart is carried out exactly when the setup goes through: every pod is on its way out, the request is handled, the status says Pending and restarting, and two seconds later the reconcile is due again; otherwise the request stays pending |
| `Convergence.AttemptReaches` | `internal/controller/core/labsession_controller.go:197-262` | One more attempt, however it ends, keeps the same end state reachable |
| `Attempts.LiveAttempt` | `internal/controller/core/labsession_controller.go:197-262` | A live attempt runs a prefix of the plan; the status is written and success reported only when the whole plan is done |
| `Attempts.PhaseIgnoresDraws` | `internal/controller/core/labsession_controller.go:372-431` | Random values in pod environments never influence the phase |
| `Actions.Overwrite` | `internal/controller/core/labsession_controller.go:475-906` | Writing an object, then another, then the first again leaves what the last two writes leave, merged service labels included |
| `Actions.AbsorbAll` | `internal/controller/core/labsession_controller.go:197-259` | Any actions of a plan, in any order, run before the plan leave no trace in the objects it produces |
| `Actions.PodsAbsorb` | `internal/controller/core/labsession_controller.go:1527-1542` | Cutting and repeating a plan creates the same pods in the same order, because an existing pod is never touched |
| `Actions.PlanAbsorbsPrefix` | `internal/controller/core/labsession_controller.go:197-259` | A plan cut anywhere and then run in full gives what one full run gives |
| `Plans.AdmissibleIffClear` | `internal/controller/core/labsession_controller.go:197-259` | A plan goes through exactly when each of its calls is admissible in the namespace as it was before the plan |
| `Plans.AdmissibleAfterPrefix` | `internal/controller/core/labsession_controller.go:197-259` | Once a prefix of a plan went through, the plan goes through from there exactly when it goes through from the start |
| `Settling.AttemptLowersRank` | `internal/controller/core/labsession_controller.go:155-263` | With specs, reported statuses and time frozen, every reconcile leaves the session object alone or lowers a measure bounded by five |
| `Settling.SelfTriggeringEnds` | `internal/controller/core/labsession_controller.go:165-352` | So from any state at all, however many reconciles run and whatever their calls return, at most five of them write the session |
| `Timing.ExpiryWithinAMinute` | `internal/controller/core/labsession_controller.go:191-195` | From any reachable state, in error-free instantaneous runs that honour requeues, a session is reconciled no later than a minute after its expiry and the first reconcile after expiry deletes it |
| `Timing.LifetimeBounded` | `internal/controller/core/labsession_controller.go:272-286` | The same from the reconcile that starts the timers, whatever the lifetime parses to: the expiry is the start plus the lifetime in whole seconds, and deletion follows no later than a minute after the later of start and expiry |
| `Timing.MinuteIsTight` | `internal/controller/core/labsession_controller.go:354-366` | A reconcile exactly at the expiry of a settled running session deletes nothing and asks for the next one a whole minute later |
| `Timing.DriveOk` | `internal/controller/core/labsession_controller.go:155-263` | A whole reconcile with any interference keeps the invariants |
| `Interleaved.StatusAfterSuccess` | `internal/controller/core/labsession_controller.go:265-352` | From any reachable state and whatever moves between the calls: a reconcile that succeeds has reported a restart, or the stored status is the one it had read brought up to date: verdict on the pods just listed, namespace, endpoints to publish unless their number was right, timers |
| `Interleaved.CalmReconcile` | `internal/controller/core/labsession_controller.go:197-262` | While pods, the clock and other sessions move between the calls, a live reconcile that succeeds leaves exactly the objects of its plan |
| `AfterReconcile.WrittenOnlyOnChange` | `internal/controller/core/labsession_controller.go:272-352` | With nothing else moving, a successful reconcile writes the session exactly when its status did not agree yet with the pods that are there in the end |
| `AfterReconcile.PoliciesAfterSuccess` | `internal/controller/core/labsession_controller.go:500-596` | Whatever edits the namespace has behind it, and while pods, the clock and other sessions move between the calls, one successful reconcile makes the baseline and the policies of the selected services a function of the current templates |
| `AfterReconcile.ReachAfterSuccess` | `internal/controller/core/labsession_controller.go:467-596` | Then, under the same movement, a pod of a selected service reaches a destination exactly when the space gives it to all pods or one of the rules of the service grants it |
| `AfterReconcile.EndpointsFreshIff` | `internal/controller/core/labsession_controller.go:343-346` | With nothing else moving, after a successful reconcile the stored endpoints are the ones to publish exactly when their number was off or they were right before |
| `AfterReconcile.FirstEndpoints` | `internal/controller/core/labsession_controller.go:305-346` | A session without endpoints gets exactly the ones to publish from its first successful reconcile |
| `AfterReconcile.RequeueAfterSuccess` | `internal/controller/core/labsession_controller.go:354-366` | A successful reconcile with nothing else moving asks for the next one in exactly a minute when the session it leaves is running and two seconds otherwise, or exactly at a nearer expiry |
| `AfterReconcile.SettingsAfterSuccess` | `internal/controller/core/labsession_controller.go:705-833` | While pods, the clock and other sessions move, a successful reconcile makes quota, limit range and pull secret a function of the current space and configuration, each under the owner it is to have, leaves them alone when there is nothing to set, and removes the policy of the old format |
| `AfterReconcile.UserEditLeavesStaleAddress` | `internal/controller/core/labsession_controller.go:307-346` | The user of a session with current endpoints changes and the next reconcile succeeds: each HTTP route serves the new host while the old address stays published |
| `AfterReconcile.LeftoversAdopted` | `internal/controller/core/labsession_controller.go:501-504` | With nothing else moving, a successful reconcile leaves every pod it finds as it is and takes the baseline over for the current incarnation, so a namespace that outlived an earlier one is adopted |
| `AfterReconcile.WorkloadPresent` | `internal/controller/core/labsession_controller.go:234-259` | With nothing else moving, a successful reconcile leaves the workspace pod and the pod of every selected service, alive unless the pod of that name was terminating before; so a restart is complete with the first success after the deleted pods are gone |
| `Workload.PodsMade` | `internal/controller/core/labsession_controller.go:919-977` | With nothing else moving, a successful reconcile leaves the pods it finds as they are, and each further pod is the desktop pod with "interface", guard and their exact requirements, or the pod of a selected service with its one container |
| `Workload.WorkloadMade` | `internal/controller/core/labsession_controller.go:909-1246` | It makes the desktop pod if its name was free, and the pod of every selected service whose name was free and is not the desktop's |
| `Workload.WorkloadAdmitted` | `internal/controller/core/labsession_controller.go:794-833` | In a space with resources, under the limit range it left: every container of every pod declares all counters, the desktop pod fits exactly when the author's desktop lists suit the defaults, and a challenge pod exactly when its author's requests are within the limits in force |
| `Selection.ServiceSelectsItsPod` | `internal/controller/core/labsession_controller.go:979-1277` | In every run, each Service in a session namespace selects the pod of its own name, of which there is at most one, and no other pod |
| `Selection.PolicySelectsItsPod` | `internal/controller/core/labsession_controller.go:475-596` | In every run, the policy stored for a service selects the challenge pod of that name and no other, and the baseline selects every pod |
| `Egress.BaselineMeaning` | `internal/controller/core/labsession_controller.go:475-536` | The baseline lets out exactly: own namespace, kube-dns on port 53, monitoring on 9428/TCP, and the outside world when internet is allowed |
| `Egress.BaselineIngressMeaning` | `internal/controller/core/labsession_controller.go:505-525` | The baseline admits exactly: own namespace on any port, gateway and monitoring namespaces on the guard port over TCP |
| `Egress.PortsMeaning` | `internal/controller/core/labsession_controller.go:664-682` | A compiled port list lets through the listed ports with unset protocol read as TCP, and every port when empty |
| `Egress.FqdnMeaning` | `internal/controller/core/labsession_controller.go:625-640` | A compiled name matches what the name means: exact, or a pattern as soon as it holds a wildcard anywhere |
| `Egress.DocumentedIff` | `internal/controller/core/labsession_controller.go:625-640` | The compiled name means what the comment says exactly when it has no wildcard or starts with "*." |
| `Egress.RuleMeaning` | `internal/controller/core/labsession_controller.go:557-682` | The policy rules of one egress rule match exactly the flows the rule grants |
| `Egress.RulesMeaning` | `internal/controller/core/labsession_controller.go:575-583` | The compiled rule list matches exactly the flows some source rule grants |
| `Egress.ServiceMeaning` | `internal/controller/core/labsession_controller.go:585-596` | A service's policy selects only pods labelled for that service and lets out exactly what its rules grant |
| `Egress.ToPortsBlock` | `internal/controller/core/labsession_controller.go:666-682` | The append loop computes the compiled port block, none for an empty list |
| `Egress.FqdnEgressRule` | `internal/controller/core/labsession_controller.go:628-645` | The loop over names computes the toFQDNs rule, none without names |
| `Egress.CidrEgressRule` | `internal/controller/core/labsession_controller.go:649-662` | The loop over ranges computes the toCIDR rule, none without ranges |
| `Egress.RenderServiceRules` | `internal/controller/core/labsession_controller.go:575-583` | The loop over rules computes the compiled rule list, name rule before range rule |
| `Reach.NamespaceReach` | `internal/controller/core/labsession_controller.go:467-596` | With the baseline in place, a pod gets out exactly what the baseline gives plus what the policy stored under its own service's key lists; policies of unselected services give it nothing |
| `Reach.ServiceReach` | `internal/controller/core/labsession_controller.go:475-682` | After one full plan over any earlier objects, a service pod reaches exactly the baseline destinations and those its current rules grant |
| `Reach.WorkspaceReach` | `internal/controller/core/labsession_controller.go:475-682` | The desktop gains nothing from any service's rules |
| `Reach.SessionsCannotTalk` | `internal/controller/core/labsession_controller.go:467-474` | With the baseline in place neither end lets traffic between pods of two sessions through, whatever the specs say |
| `Plans.BaselineAfterPlan` | `internal/controller/core/labsession_controller.go:500-536` | A full plan leaves the baseline of the current space, owned by the session, whatever was there |
| `Plans.ServicePolicyAfterPlan` | `internal/controller/core/labsession_controller.go:557-596` | A full plan leaves each selected service exactly the policy of its current rules, or no policy when it has none |
| `Plans.QuotaAfterPlan` | `internal/controller/core/labsession_controller.go:770-833` | A full plan leaves quota and limit range whenever the space sets resources |
| `Plans.SettingsAfterPlan` | `internal/controller/core/labsession_controller.go:705-833` | What a full plan leaves of quota, limit range, pull secret and the old policy, content and owner, from any earlier objects |
| `Plans.PlanNoClash` | `internal/controller/core/labsession_controller.go:557-596` | No plan both writes and deletes a key: service policies never collide with each other or with the baseline |
| `Names.PolicyNamesDistinct` | `internal/controller/core/labsession_controller.go:558-558` | Policy names of different services differ and none is that of the baseline |
| `Phases.RunningIff` | `internal/controller/core/labsession_controller.go:372-431` | Running means some pod exists and every pod is live, past provisioning, without waiting containers, in phase Running and fully ready; nothing else reports it |
| `Phases.VerdictIff` | `internal/controller/core/labsession_controller.go:372-431` | In terms of the pods' own statuses: the first pod in list order that is not settled decides, with the exact condition for each phase and message; with all settled it is the empty list, readiness, or Running |
| `Phases.RunningIgnoresOrder` | `internal/controller/core/labsession_controller.go:372-431` | Running does not depend on list order |
| `Phases.OrderIrrelevantIff` | `internal/controller/core/labsession_controller.go:372-431` | Phase and message do not depend on list order exactly when all pods that are not settled would get the same verdict on their own |
| `Phases.FailedIff` | `internal/controller/core/labsession_controller.go:396-416` | Failed exactly when the first pod that is not settled is alive, past provisioning, and its first waiting container crash-loops, or nothing waits and the pod failed |
| `Phases.MessageDependsOnOrder` | `internal/controller/core/labsession_controller.go:377-420` | An input on which they do: a concrete pair of lists |
| `StatusSync.SyncedAgrees` | `internal/controller/core/labsession_controller.go:265-352` | The pass leaves, as stored: the verdict on the listed pods, the namespace, the endpoints to publish unless their number was right, and timers started once with an hour to live when the lifetime does not parse; it writes nothing exactly when timers, verdict and count agreed |
| `StatusSync.SyncSettles` | `internal/controller/core/labsession_controller.go:265-352` | A written status needs no second write, although the store drops fractions of a second |
| `StatusSync.RequeueBounds` | `internal/controller/core/labsession_controller.go:354-366` | A running session waits exactly a minute and any other exactly two seconds, unless its expiry is nearer: then exactly the time left; never past a future expiry |
| `StatusSync.DesiredPublishes` | `internal/controller/core/labsession_controller.go:305-341` | The wanted list is the workspace's endpoint first and then, unless the space is internal-only, one endpoint per exposed service in list order and nothing else: kind, host and count |
| `Routes.EndpointsServed` | `internal/controller/core/labsession_controller.go:307-346` | With nothing else moving, a successful reconcile of a space that is not internal-only, from no or current endpoints, publishes current endpoints and leaves the workspace and every HTTP address routed to a Service that listens on the routed port, when no service takes the name of the workspace route or Service |
| `Routes.EndpointsStayServed` | `internal/controller/core/labsession_controller.go:307-346` | While templates stay as they are, this survives any number of further attempts, each cut at any call, with time passing in between |
| `Routes.ServedAfterSuccess` | `internal/controller/core/labsession_controller.go:863-1317` | With nothing else moving, after a successful reconcile all these addresses are served exactly when no selected service took the name of the workspace route or, with other ports, of the workspace Service |
| `Routes.WorkspaceRouteAfterPlan` | `internal/controller/core/labsession_controller.go:863-907` | The workspace host is served by the workspace route exactly when no routed service carries that route's name |
| `Routes.WorkspaceServiceAfterPlan` | `internal/controller/core/labsession_controller.go:979-1005` | The workspace Service listens on the guard port exactly when no service with other ports carries its name |
| `Routes.ServiceRouteAfterPlan` | `internal/controller/core/labsession_controller.go:1279-1317` | Each HTTP service has a route with its published host name and first port |
| `Routes.ServiceAfterPlan` | `internal/controller/core/labsession_controller.go:1248-1277` | Each selected service keeps a Service with its own selector and ports, whatever other services write |
| `Routes.OnlyHttpRouted` | `internal/controller/core/labsession_controller.go:1279-1317` | An exposed service of a space with outside access always gets an address; it gets its route exactly when exposed over HTTP with a port, and otherwise the workspace route or whatever was there stays under its name, an earlier HTTP route included |
| `Routes.EndpointHosts` | `internal/controller/core/labsession_controller.go:307-341` | Every published address is the scheme plus the very host name the matching route serves |
| `Resources.QuantityMap.SetDefault` | `internal/controller/core/labsession_controller.go:98-102` | In place: the default is added only under a missing name |
| `Resources.QuantityMap.CopyFrom` | `internal/controller/core/labsession_controller.go:111-116` | In place: every source entry is copied over |
| `Resources.WorkspaceResources` | `internal/controller/core/labsession_controller.go:108-126` | Fresh lists that hold, entry by entry, the author's value where there is one and the platform number otherwise; the author's maps are not written |
| `Resources.ServiceResources` | `internal/controller/core/labsession_controller.go:131-138` | Fresh lists: the author's requests, every author limit with its value, 512Mi of storage exactly when the author wrote none or just that, and no other limit; the author's maps are not written |
| `Resources.BuildHard` | `internal/controller/core/labsession_controller.go:771-777` | The entry-by-entry loops compute the tagged union of both author lists |
| `Resources.QuotaHardRoundTrip` | `internal/controller/core/labsession_controller.go:771-780` | Both author lists can be read back from the hard map, nothing else is in it, and it is empty exactly when the limit range is skipped |
| `Resources.EveryContainerDeclares` | `internal/controller/core/labsession_controller.go:756-833` | Desktop and guard declare request and limit for cpu, memory and ephemeral storage whatever the author wrote, and under the limit range any container does |
| `Resources.WorkspaceFits` | `internal/controller/core/labsession_controller.go:108-126` | Desktop requests stay within limits, with or without the limit range, exactly when the author's own entries agree with each other and with the platform numbers the other list gets |
| `Resources.SmallLimitRejected` | `internal/controller/core/labsession_controller.go:108-126` | An author limit below a platform request is not admitted: a concrete template |
| `Resources.ServiceFits` | `internal/controller/core/labsession_controller.go:131-138` | Under the limit range a challenge container fits exactly when each author request is within the author's limit, or within the number that takes its place |
| `Names.NamespacesDistinct` | `internal/controller/core/labsession_controller.go:168-198` | Different sessions have different namespaces |
| `Names.CleanDnsNameIdempotent` | `internal/controller/core/labsession_controller.go:1544-1550` | Cleaning removes underscore, at-sign and upper case, and a second pass changes nothing |
| `Names.CleanDnsNameFixpoint` | `internal/controller/core/labsession_controller.go:1544-1550` | Cleaning is the identity exactly on names without those characters |
| `Names.CleanDnsNameCollisions` | `internal/controller/core/labsession_controller.go:1544-1550` | Two names clean alike exactly when they differ only in letter case and the choice among dash, underscore and at-sign |
| `Names.WorkspaceHostnameIs` | `internal/controller/core/labsession_controller.go:838-841` | The workspace host of a valid session name, with "lab-" in front left out |
| `Names.WorkspaceHostnameCollisions` | `internal/controller/core/labsession_controller.go:838-841` | Two valid session names share a workspace host exactly when they are equal or one is the other behind "lab-" |
| `Names.WorkspaceHostnameInjective` | `internal/controller/core/labsession_controller.go:835-841` | The workspace host is unique among session names with the "lab-" prefix |
| `Names.ServiceHostnameOfUser` | `internal/controller/core/labsession_controller.go:1288-1288` | One service has different hosts exactly for different users |
| `Names.ServiceHostnameCollisions` | `internal/controller/core/labsession_controller.go:1288-1288` | Two challenges share a host exactly when service and user are the same, or one service name is the other with "-w" behind it while the other's user starts with "w-" |
| `Names.ServiceHostnameClash` | `internal/controller/core/labsession_controller.go:1288-1288` | An instance: two services of two users with one host |
| `Reconciler.Reconcile` | `internal/controller/core/labsession_controller.go:155-263` | From any store and any surroundings, the imperative reconcile makes the calls, leaves the store and returns the result of the protocol's big step |
| `Reconciler.FinishDeletion` | `internal/controller/core/labsession_controller.go:165-176` | Namespace delete, its failure ignored, then the finalizer |
| `Reconciler.AddFinalizer` | `internal/controller/core/labsession_controller.go:178-182` | Adds the finalizer and stops |
| `Reconciler.EnsureInfrastructure` | `internal/controller/core/labsession_controller.go:197-220` | The setup section up to the first failing call |
| `Reconciler.EnsurePullSecret` | `internal/controller/core/labsession_controller.go:705-729` | No call when the feature is off, otherwise the secret, owned only on creation |
| `Reconciler.EnsureResourceQuota` | `internal/controller/core/labsession_controller.go:770-792` | No call for an empty hard map, otherwise the quota with the collected map |
| `Reconciler.EnsureLimitRange` | `internal/controller/core/labsession_controller.go:806-833` | No call when both lists are empty, otherwise the default ranges |
| `Reconciler.EnsureBaselinePolicy` | `internal/controller/core/labsession_controller.go:475-536` | Drops the legacy policy, then writes the baseline of the space |
| `Reconciler.MaybeRestart` | `internal/controller/core/labsession_controller.go:438-465` | Nothing without a pending request; otherwise pod deletes and the handled mark, or an error |
| `Reconciler.DeleteListedPods` | `internal/controller/core/labsession_controller.go:448-454` | The loop issues exactly one delete per listed live pod, whatever each reports |
| `Reconciler.ReportRestart` | `internal/controller/core/labsession_controller.go:227-232` | Best-effort Pending status, then a two-second requeue |
| `Reconciler.BuildWorkspaceContainers` | `internal/controller/core/labsession_controller.go:931-947` | The desktop with the author's entries over the defaults, the guard with its own block, and the checker only for the misspelt type |
| `Reconciler.ReconcileWorkspace` | `internal/controller/core/labsession_controller.go:909-977` | Task listing, pod and service of the workspace up to the first failure |
| `Reconciler.ReconcileServiceResources` | `internal/controller/core/labsession_controller.go:1155-1246` | Pod, egress policy and service of one challenge up to the first failure |
| `Reconciler.EnsureServiceEgressPolicy` | `internal/controller/core/labsession_controller.go:557-596` | Deletes the policy of a service without rules, otherwise writes the rendered one |
| `Reconciler.EnsureService` | `internal/controller/core/labsession_controller.go:1248-1277` | The port loop copies every port, and labels are merged |
| `Reconciler.ReconcileRoute` | `internal/controller/core/labsession_controller.go:1279-1317` | A route for HTTP exposures only; a missing port aborts |
| `Reconciler.ReconcileServices` | `internal/controller/core/labsession_controller.go:247-259` | The discovery loop handles the services in list order up to the first failure |
| `Reconciler.SyncStatus` | `internal/controller/core/labsession_controller.go:265-367` | Lists, refreshes, writes on change, and requeues as the protocol's status step does |
| `Reconciler.RefreshStatus` | `internal/controller/core/labsession_controller.go:272-346` | The field-by-field updates compute the status function and its write flag |
| `Reconciler.PublishedEndpoints` | `internal/controller/core/labsession_controller.go:305-341` | The append loop builds the list to publish: the workspace alone in an internal-only space, otherwise one more entry per exposed service in list order |
| `Reconciler.RequeueDelay` | `internal/controller/core/labsession_controller.go:354-364` | The branches give a minute when running and two seconds otherwise, or exactly the time to a nearer expiry |
| `CtfTaskRuns.PhasesFollowEdges` | `internal/controller/ctftask_controller.go:71-134` | In every run the stored phase moves only from "" to Pending to Provisioning and then among Provisioning, Ready and Failed, each with a message that fits it; the expiry is stored with Pending, exists exactly when the phase is set, and never changes |
| `CtfTaskRuns.ReadyMeansServed` | `internal/controller/ctftask_controller.go:92-134` | As long as nobody else deletes its objects, a Ready task has its pod, service and network policy, all owned by it, and its address |
| `CtfTaskRuns.DeletesWhatExpired` | `internal/controller/ctftask_controller.go:71-75` | A delete follows a read of an expired CTFTask, and the one it takes away has expired exactly when it is the one that was read |
| `CtfTaskRuns.FreshTaskDeleted` | `internal/controller/ctftask_controller.go:71-75` | From every expired CTFTask a run in which a fresh one takes its name and is deleted |
| `CtfTaskRuns.ExpiryWithinHalfAMinute` | `internal/controller/ctftask_controller.go:71-137` | From any reachable state, in error-free instantaneous runs that honour requeues, a task is reconciled within half a minute of its expiry and deleted by the first reconcile after it |
| `CtfTaskRuns.LifetimeBounded` | `internal/controller/ctftask_controller.go:78-89` | The same from the reconcile that initializes a CTFTask, for every non-negative duration |
| `CtfTaskRuns.ReconcileTracksPod` | `internal/controller/ctftask_controller.go:92-137` | An undisturbed reconcile of an initialized CTFTask succeeds exactly when no object of its name belongs to an owner of another kind or name; then all three objects are its own, a pod that was there is only re-labelled, a new one is made from the spec, and the phase is the readiness of the pod; otherwise the phase is Failed and the message names the first such object |
| `CtfTaskRuns.FlagCurrentIff` | `internal/controller/ctftask_controller.go:201-224` | The pod then holds the flag of the current spec exactly when there was no pod or it held that flag already |
| `CtfTaskRuns.FlagsInPods` | `internal/controller/ctftask_controller.go:156-224` | The pods two undisturbed reconciles make for two CTFTasks carry one flag exactly when both show equally much of the digest of one text; for two specs of one CTFTask, exactly when both are global or both belong to one student |
| `CtfTaskRuns.InitialReconcile` | `internal/controller/ctftask_controller.go:78-89` | The first undisturbed reconcile starts the time: the expiry is the parsed duration from now in whole seconds, or now when it does not parse |
| `CtfTaskRuns.PredecessorAdopted` | `internal/controller/ctftask_controller.go:201-238` | A CTFTask deleted and created again before collection adopts its predecessor's objects: the old pod with the old flag becomes its own, and its readiness its phase |
| `CtfTaskRuns.StepOk` | `internal/controller/ctftask_controller.go:63-138` | Every call, refused, lost or done, keeps the invariants |
| `CtfTaskRuns.RunOk` | `internal/controller/ctftask_controller.go:63-138` | The invariants hold after every run |
| `CtfTask.PersonalFlagData` | `internal/controller/ctftask_controller.go:156-172` | Personal flags of one task hash different texts exactly for different students |
| `CtfTask.FlagIs` | `internal/controller/ctftask_controller.go:156-172` | The flag is the format filled with the first 12, or the given number of, characters of the digest of the name, or of name, dash and student when personal |
| `CtfTask.FlagsAgreeIff` | `internal/controller/ctftask_controller.go:156-172` | Where the format keeps texts apart and the digest keeps the texts at hand apart, two CTFTasks of one format have one flag exactly when they show equally much of the digest of one text |
| `CtfTask.FlagsOfOneTask` | `internal/controller/ctftask_controller.go:156-172` | Two specs of one CTFTask have one flag exactly when both are global, or both are personal with one student |
| `CtfTask.FlagDataCollisions` | `internal/controller/ctftask_controller.go:156-163` | Exactly when two CTFTasks hash one text, personal and global ones in any combination: name and student are the same, or the dash that joins them can be read in two ways |
| `CtfTask.FlagDataClash` | `internal/controller/ctftask_controller.go:159-162` | An instance: two names and students with one text |
| `CtfTask.UrlsDistinct` | `internal/controller/ctftask_controller.go:122-122` | CTFTasks of different names have different addresses |
| `CtfTaskReconciler.Reconcile` | `internal/controller/ctftask_controller.go:63-138` | From any store and any surroundings, the imperative reconcile does what the big step says |
| `CtfTaskReconciler.IsPodReady` | `internal/controller/ctftask_controller.go:140-153` | The scan finds a true readiness condition exactly when there is one |
| `CtfTaskReconciler.EnsureResources` | `internal/controller/ctftask_controller.go:175-199` | Pod, service and policy in turn, naming the first that fails |
| `CtfTaskReconciler.Initialize` | `internal/controller/ctftask_controller.go:78-89` | Expiry, phase and message written together, an unparsable duration counting as zero |
| `CtfTaskReconciler.JudgePod` | `internal/controller/ctftask_controller.go:112-137` | Readiness becomes the phase, and the status is written only when the phase moved |

## Left out

- Client caches, watches and rate limiting: reads see the store, and a retry is another reconcile.
- The read and the write inside one create-or-update are a single step. A conflict between them is a refused call.
- Reconciler.SyncStatus: `time.Now` and `time.Until` read the clock of the store, with no time between two reads that have no call between them.
- Reconciler.ReconcileRoute: the index of an empty port list is a call that never succeeds, not a crash of the process.
- Convergence.CrashRetryConfluence: the session stays live in all attempts and nothing else moves between them; pods keep their reported statuses.
- Timing.ExpiryWithinAMinute: a missing space is excluded by the error-free runs, since the space is fetched before the expiry is checked.
- Guarantees.IsolationBeforeWorkload: says nothing about pods of earlier incarnations, for which it is false; the lemmas after it say when and give the runs.
- CtfTaskRuns.ReadyMeansServed: pods deleted by others leave the phase Ready until the next reconcile.
- Quota admission of a pod is a refused call; the server's own bookkeeping is not modelled.
- Pods of a session that somebody other than the controller creates, and edits of its objects by others.
- Objects of services that leave the selector: nothing prunes them; they stay in the namespace and only `Reach.NamespaceReach` says what their policies no longer do.
- Pod contents without a hard property: images, commands, probes, volumes, environment variables, security contexts, pod hardening, pull-secret references.
- `buildGlobalChecker` and `mergeTaskEnvs` beyond the checker's presence, since no admitted workspace type reaches them.
- Gateway parent references and namespace labels: constants.
- The network policy contents and the commented-out route of a task; the pod's labels other than the student.
- A task and its objects are modelled under one name; tasks of other names share nothing with it.
- Other finalizers or a deletion timestamp on tasks, and phases written to a task by other programs.
- Wire formats, deep-copy code, the infra controllers and the command-line entry point.
