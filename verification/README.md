# Verification of the external domain broker

A Dafny model of the broker that gives cloud.gov applications domains, certificates
and content delivery, with proofs about what survives its failures. The broker works
in long task pipelines over database rows and AWS resources: a task can fail and be
retried, a pipeline can be started again from its first task, and an operation can be
canceled. Run `dafny verify dfyconfig.toml` to check everything.

## What is modelled

Three groups of modules, in the order in which to read them.

**Certificates.** `Records` is the state: one service instance row with its certificate
and challenge rows, and the part of AWS and of the certificate authority that they talk
about. `Tasks` gives the effect of every task as a function with a budget of external
calls, so that a task can stop at any of its commits; `Frames` says what its loops leave
alone. `Pipelines` holds the fourteen task chains and the machine that runs them: tries,
rejected orders, restarts, and churn by other tenants. On these stand

- `Rotation`, `PhaseOrder`, `RotationRuns`: no outage while a certificate is replaced;
- `RotationProgress`: such a run is never stuck for good;
- `Restarts`, `Stranding`, `StrandedService`: exactly what a restart after selection
  costs, that it happens, and that nothing goes down meanwhile;
- `Moves`, `RestartedMoves`, `Leftovers`, `DroppedDomains`: which domains a plan move ends
  with, what its restart leads to, what a refused move leaves to the next pipeline, and what
  becomes of the records of domains that an update drops;
- `Deprovisioning`: what a deprovision leaves behind, and when it never finishes;
- `Provisioning`, `ProvisioningRuns`: restarts do not change where a provisioning ends;
- `ChallengeLiveness`, `References`, `UnchangedUpdate`, `ChangeIds`: challenges are
  answered only when live, columns never dangle, an update for the same domains is the
  identity, and change ids are drained in order;
- `Lifecycle`: an instance can be provisioned from nothing, and renewed or moved from
  there;
- `TaskBodies`: the task bodies as methods over mutable rows, with their loops and
  commits, each proved equal to its function.

**Operations and admission.** `Operations` is the transition system of requests, scans,
worker, cancellation, failure and restart; `OperationSafety` its invariant;
`OperationResults` what follows over all runs; `OperationStalls` when an operation is
stuck; `PlanQueues`, `PlanPlaces` and `OperationQueues` which pipeline is queued for which
plan, by what it does, and what becomes of an operation that goes through;
`UpdateRequests` what an update does to the domains, the new certificate and the type of its
instance; `OperationBodies` the imperative code. `Listeners`, `ListenerCapacity` and
`ListenerBodies` place dedicated instances, `Domains` keeps domain names unique.

**Loops and reconcilers.** `Cname`, `Hostname`, `CacheBehavior`, `DuplicateCerts`,
`HealthChecks`, `HealthCheckBodies` and `MonitoringRuns`, `CdnParams` and
`CdnParamBodies`; `Strings` has the string order, case and splitting they share.

## Modelling decisions

- One request, one scan and one task body are one atomic step, except that a task which
  commits inside a loop can stop after any commit. A budget says how many external calls
  succeed; a failing call comes before the assignments that follow it.
- A stalled operation's old pipeline is dead when it is started again. A canceled
  execution drops the task and the rest of its pipeline; a retrieval cancels itself when
  its order was rejected and the pending certificate deleted. `Operations` has that
  cancellation; the certificate runs show it as a task that no try can finish.
- To change the type of an instance is a textual update that forgets what is pending on
  its row (`broker/models.py:462-469`, as the comment at `broker/api.py:349-350` says).
  So the moves that leave a load balancer's plan drop the domains of their request.
- The scan for stalled operations queues by the plan that the instance has by then. So a
  restarted move between plans goes on as an update of the plan it leads to, and for the
  type that a move to a distribution has in between there is no pipeline at all.
- A DNS record remembers the targets that resolvers may still be given until its change
  is in sync. Serving a domain means: behind every such target there is a certificate of
  the instance, attached or served, still in IAM, that names the domain.
- Route 53 keeps the caller reference of a health check: asked again under it, it answers
  with the check it made, if that is there and for the same domain, and refuses otherwise.
- The deletion of a DNS record goes through when the request matches the record exactly;
  otherwise the task ignores the error.
- AWS and the database return fresh ids. Shared and dedicated listeners are disjoint. A
  listener is known by the pair of its load balancer's ARN and its own.
- An IAM certificate is known by its partition and the row it was uploaded for. IAM
  refuses to delete a certificate that a listener or a distribution uses.
- The authority grants authorizations for the names of the order's CSR only, finalizes an
  order when all its challenges are answered, and can reject one that has no certificate.
- Other tenants may put anything on a listener and fill or free dedicated listeners at
  any moment (event `Churn`), but do not remove this instance's certificates.

## Where the code does not do what it is for

Each of these is proved, with the exact condition where there is one.

- Restarting a renewal after the selection of another load balancer forgets the listener
  that holds the old certificate; the run then cannot finish without another restart
  (`Restarts.RestartAfterSelection`, `Stranding.ARenewalGetsStranded`). Nothing goes down
  meanwhile (`StrandedService.StrandedDomainsAreServed`).
- A move to a dedicated load balancer that the stalled scan starts again before its
  certificate is promoted goes on as an update that never finishes, short of another
  restart after the promotion (`RestartedMoves.RestartedMoveNeverFinishes`,
  `AMoveGetsCaught`). A move to a distribution is not started again at all, so a rejected
  order is the end of it (`RestartedMoves.RejectedMoveNeverFinishes`).
- The moves from a shared to a dedicated load balancer and from there to a distribution
  drop the domains they are asked for, without an error. They end with the domains the
  instance had, all served (`Moves.MovesKeepTheirDomains`, `Lifecycle.AMoveKeepsItsDomains`,
  `UpdateRequests.RequestApplies`).
- A move between distributions that applies new domains does not remove the records of the
  old ones: they still lead to the distribution (`DroppedDomains.DroppedDomainPointsHere`,
  `AMoveLeavesARecord`). It does not configure the firewall's logging either
  (`PlanQueues.MoveTasks`).
- A provisioning behind a load balancer that is canceled after a listener was chosen and
  before its certificate is promoted leaves an instance that no deprovision ever finishes
  with (`Deprovisioning.HalfPlacedNeverFinishes`, `ACanceledProvisioningStays`).
- A deprovision deletes the current and the pending certificate from IAM, and no other: one
  that interrupts a renewal after its promotion leaves the old certificate there
  (`Deprovisioning.LeftInIam`, `AnInterruptedRenewalLeaks`).
- A move between distributions whose parameters are refused leaves the row as the request
  had changed it, with no operation to apply it: with the new domains, or, without any,
  with the current certificate as the new one (`UpdateRequests.RefusalChanges`,
  `ARefusalChanges`, `ARefusalLeavesTheCertificate`). The next renewal then renews
  nothing, and the next update serves its domains only if the old certificate names them
  (`Leftovers.TheCertificateStays`, `ARenewalRenewsNothing`, `ARenewalAfterARefusal`).
- A rejected order loses its pipeline: the next try of the retrieval cancels itself, the
  operation is not marked failed and stays in progress until the stalled scan starts it
  again (`OperationStalls.RejectionLosesThePipeline`, `ARejectedOrderStalls`).
- The tasks that delete a distribution and its firewall get the operation id by keyword.
  When they fail for good the same happens to the deprovision
  (`OperationResults.KeywordQueues`, `OperationStalls.ACdnDeprovisionStalls`).
  `OperationStalls.StuckExactlyWhenLost` says exactly when an operation is stuck.
- A move to a distribution that fails leaves a type that no later update is for: without
  new domains it does nothing, with new domains its operation has no pipeline. The stalled
  scan raises at any operation of such an instance, and starts none after it, so a
  rejected order is never recovered during that move
  (`UpdateRequests.MigratingUpdatesAreStuck`, `ScanEndsAtAMove`, `AFailedMoveCannotBeRepeated`).
- An organization whose dedicated listeners all have nineteen instances can renew or
  update none of them, as the count includes the instance itself
  (`ListenerCapacity.RaisesExactlyWhenFull`, `AFullOrganizationCannotRenew`).
- An instance that has had a health check never gets another domain: the caller references
  start again at 0, and the update that adds the domain raises
  (`HealthChecks.CreationStops`, `NoDomainCanBeAdded`, `AnAddedDomainStops`).
- A new domain listed twice gets two health checks (`HealthChecks.OneCheckPerDomain`,
  `HealthChecks.ARepeatedDomainHasTwoChecks`, `Domains.ARepeatedDomainIsAccepted`).
- Plain HTTP to the default origin, which both requests mean to refuse, is reachable in
  two ways (`CdnParams.ProvisionInsecureDefault`, `CdnParams.UpdateInsecureDefault`, and
  `AnInsecureProvision`, `AnInsecureUpdate`).
- The search for duplicate certificates can stop too early when one is on two listeners
  (`DuplicateCerts.GetMatchingListeners`, `DuplicateCerts.TwoListenersCanFoolIt`).

## Model

| member | source | states |
|---|---|---|
| `RotationRuns.RotationIsSafe` | broker/pipelines/alb.py:54-94 | No outage: start any renewal, update or plan move on a steady instance; after any retries, rejected orders, harmless restarts and changes by other tenants, every target a resolver may be given for a kept domain has a certificate of the instance for it, still in IAM; no listener holds a certificate that IAM lost; at the end all domains are served and the instance is steady again |
| `RotationRuns.RenewForever` | broker/pipelines/alb.py:76-94 | Any number of finished renewals, behind a listener or a distribution, leaves the instance steady and every domain served |
| `Lifecycle.LifeOfAnInstance` | broker/api.py:178-255 | From nothing to renewed: whatever faults its provisioning had, it can be finished, and the instance it leaves can be renewed, ending steady with every domain served |
| `Lifecycle.ANewInstance` | broker/models.py:91-135 | There are instances for which all this can be started, for every provisioning pipeline |
| `Lifecycle.QueuesFitPlans` | broker/tasks/cron.py:154-203 | Provisioning leads to the place of its plan, renewal and update start from there, a move starts from the place of the plan that is left; behind a load balancer each chooses among the listeners of its own plan |
| `PlanPlaces.FinishedInPlace` | broker/tasks/cron.py:160-189 | Any finished run of the pipeline queued for a plan, for provisioning, renewal, update or a move to it, leaves the instance in a place of that plan: on a shared listener, on a dedicated one that its organization was offered, or at a distribution |
| `PlanPlaces.RestartLeadsThere` | broker/tasks/cron.py:154-203 | What the scan starts again leads to the same plan |
| `PlanQueues.ProvisionTasks` | broker/pipelines/cdn_dedicated_waf.py:19-50 | The provisioning pipeline of a plan holds, in order, exactly the placement, firewall and monitoring tasks of that plan |
| `PlanQueues.RenewalTasks` | broker/pipelines/dedicated_alb.py:66-84 | A renewal places the certificate where its plan has it, and touches neither firewall nor monitoring |
| `PlanQueues.UpdateTasks` | broker/pipelines/dedicated_alb.py:41-63 | An update sets the plan's firewall up again, reconciles monitoring exactly for the plan that has it, and removes the records of dropped domains |
| `PlanQueues.MoveTasks` | broker/pipelines/plan_updates.py:17-119 | A move sets up exactly what the plan it leads to has, except that the one between distributions sets up no firewall logging and, like the first, removes no old records |
| `OperationQueues.NewOperationsFit` | broker/api.py:305-441 | Every operation that a request or scan adds is active, of its kind, and has the whole pipeline of the plan its instance has from then on; only an update of a migrating instance has none |
| `OperationQueues.RestartAgrees` | broker/tasks/cron.py:154-203 | What certificate runs start again is what the scan queues for the plan and action |
| `OperationQueues.QueueForFits` | broker/tasks/cron.py:160-189 | The stalled scan queues the whole pipeline of the plan for the action |
| `OperationQueues.ScanRenews` | broker/tasks/cron.py:65-101 | The renewal scan adds exactly one renewal for each expiring instance that is not deactivated and has no active operation, with the renewal pipeline of its plan, and changes nothing else |
| `OperationQueues.ScanStartsAgain` | broker/tasks/cron.py:104-203 | Up to the first migrating instance, the stalled scan gives exactly the stalled operations the whole pipeline of their action and plan, and changes nothing else |
| `OperationQueues.GoesThrough` | broker/tasks/update_operations.py:29-44 | An operation none of whose tasks fails has succeeded, with nothing queued, and its instance has the pending certificate as the current one, a distribution if one was made, and the type of its plan |
| `OperationQueues.DeprovisionGoesThrough` | broker/tasks/update_operations.py:47-73 | A deprovision none of whose tasks fails has deactivated its instance and canceled exactly its other operations in progress that are not deprovisions |
| `OperationQueues.UpdateStarts` | broker/api.py:305-401 | An update adds an operation if and only if the instance is ready, domains and parameters are accepted, the plan can be reached, and there is something to change |
| `UpdateRequests.UpdateGoesThrough` | broker/api.py:326-401 | An accepted update none of whose tasks fails ends with the plan asked for, the domains the request left, a new certificate unless the old one was to be used again, and ready for the next operation |
| `UpdateRequests.RequestRow` | broker/api.py:326-384 | What a request that starts an operation has done to the row |
| `UpdateRequests.RequestsAgree` | broker/api.py:326-384 | It does the same to the row that the rotations start from |
| `Lifecycle.RenewalOfPlan` | broker/tasks/cron.py:65-101 | A steady instance that serves where its plan says can be renewed to the end |
| `RotationProgress.RotationCanFinish` | broker/pipelines/alb.py:76-94 | Never stuck for good: from any moment of such a run, while there are listeners to choose from, retries bring any renewal, update or plan move to its end, steady; after a rejected order one restart comes before them, and without one none is needed. The two runs for which this is false are left to RestartedMoves: a move from a load balancer to a distribution after a rejected order, and one to a dedicated load balancer after a restart |
| `RotationProgress.RemovalSucceeds` | broker/tasks/alb.py:180-252 | The tasks that take a certificate off a listener find the listener and the certificate they need |
| `RotationRuns.DeletesOnlyIdle` | broker/tasks/iam.py:143-174 | When a run comes to delete the previous certificates none of them is attached or served, so IAM refuses none and the task succeeds |
| `RotationRuns.SteadyServes` | broker/tasks/alb.py:139-158 | A steady instance serves all its domains |
| `RotationRuns.StepKeeps` | broker/tasks/cron.py:104-203 | Every admissible event of a run (a try of the next task, a rejected order, a restart, churn by others) keeps the rotation invariant and the phase order |
| `RotationRuns.StartRotation` | broker/api.py:326-384 | What the update request does to the row of a steady instance establishes the rotation invariant |
| `PhaseOrder.PipelineIsSafe` | broker/pipelines/plan_updates.py:17-119 | Every rotating pipeline attaches before it points DNS, points and waits before it detaches, detaches before it deletes, and ends with the old certificate gone |
| `PhaseOrder.AlbPipelinesAreSafe` | broker/pipelines/dedicated_alb.py:41-84 | The same for the renewals and updates behind shared and dedicated load balancers |
| `PhaseOrder.MoveToCdnIsSafe` | broker/pipelines/plan_updates.py:43-86 | The move to a distribution detaches the remembered certificate only after DNS points at the distribution, and deletes it only after that |
| `PhaseOrder.MoveToDedicatedIsSafe` | broker/pipelines/plan_updates.py:17-40 | The move to a dedicated load balancer attaches there, points DNS and waits before it detaches from the shared one |
| `Rotation.SelectKeeps` | broker/tasks/alb.py:120-136 | Selecting remembers the listener the old certificate is on, whatever is selected |
| `Rotation.AddKeeps` | broker/tasks/alb.py:139-158 | Attaching and promoting keeps the old certificate attached where DNS still points |
| `Rotation.CreateAliasKeeps` | broker/tasks/route53.py:96-142 | Half-done ALIAS loops leave every kept domain on a place that serves it; a finished one has set every domain |
| `Rotation.OldTargetsStayVisible` | broker/tasks/route53.py:96-142 | A record set again may be answered with its old targets until the change is in sync |
| `Rotation.WaitKeeps` | broker/tasks/route53.py:74-93 | Waiting only narrows what resolvers are given; when nothing is left to wait for every domain is at the new place alone |
| `Rotation.RemoveFromPreviousKeeps` | broker/tasks/alb.py:180-207 | The certificate taken off the previous listener is the outgoing one, and the new one stays attached even when both are on one listener |
| `Rotation.RemoveDuringMoveKeeps` | broker/tasks/alb.py:233-252 | The certificate promoted again is taken off the shared listener and stays on the dedicated one |
| `Rotation.RemoveAlbCertificateKeeps` | broker/tasks/alb.py:210-230 | The remembered certificate leaves its listener once the distribution serves |
| `Rotation.UploadKeeps` | broker/tasks/iam.py:86-140 | An upload adds the pending certificate to IAM and disturbs nothing in use |
| `Rotation.RejectKeeps` | broker/tasks/letsencrypt.py:315-328 | A validation failure drops the pending row and leaves the rotation where it was |
| `Rotation.CreateDistributionKeeps` | broker/tasks/cloudfront.py:133-220 | Creating the distribution promotes the certificate it serves, with the old one still attached to its listener |
| `Rotation.UpdateDistributionKeeps` | broker/tasks/cloudfront.py:330-385 | Updating swaps the distribution's certificate in one step, so the old one is idle at once |
| `Rotation.UpdateCertificateKeeps` | broker/tasks/cloudfront.py:309-327 | A CDN renewal swaps the certificate without touching DNS, which stays right |
| `Rotation.DeleteKeeps` | broker/tasks/iam.py:143-154 | Deleting removes exactly the outgoing certificate, from IAM and from the rows |
| `RotationRuns.ChurnKeeps` | broker/tasks/alb.py:20-38 | Other tenants' certificates and placements never break a rotation |
| `Moves.MovesKeepTheirDomains` | broker/models.py:449-469 | A finished move from a load balancer's plan to the next has the domains the instance had, all served; so it has the requested ones if and only if they were the same |
| `Moves.OtherUpdatesApplyTheirDomains` | broker/api.py:326-367 | Every other finished update that names new domains has them, all served |
| `DroppedDomains.RemovalIsExact` | broker/tasks/route53.py:56-71 | The removal deletes, of the domains the instance no longer has and the current certificate has challenges for, exactly the ALIAS records that point at the instance and the TXT records written for those challenges; nothing else changes |
| `DroppedDomains.FinishedUpdateClears` | broker/pipelines/alb.py:54-73 | So a finished update that applied new domains has left no dropped domain of the old certificate's challenges pointing at the instance, and every other record of a domain it does not have as it was; the move between distributions, unless started again, has left them all |
| `DroppedDomains.DroppedDomainPointsHere` | broker/pipelines/plan_updates.py:89-119 | A domain the instance had and drops keeps its record, pointing at the instance, if and only if the update was such a move |
| `DroppedDomains.AMoveLeavesARecord` | broker/pipelines/plan_updates.py:97-105 | It happens: a new instance is provisioned and moved to another domain, and the old one still leads to its distribution |
| `Lifecycle.AMoveKeepsItsDomains` | broker/api.py:374-384 | It happens: a new instance is provisioned and moved to a dedicated load balancer with a request for another domain, and ends with the old one |
| `RestartedMoves.RestartedMoveNeverFinishes` | broker/tasks/cron.py:154-203 | A move to a dedicated load balancer that is started again before its certificate is promoted goes on as an update and does not finish, whatever happens next, short of another restart after the promotion |
| `RestartedMoves.AMoveGetsCaught` | broker/tasks/alb.py:180-207 | It happens: a new instance is provisioned, and its move is started again at once |
| `RestartedMoves.RejectedMoveNeverFinishes` | broker/tasks/cron.py:154-203 | A move to a distribution whose order was rejected stays at the retrieval, whatever happens |
| `Leftovers.NextUsesItAgain` | broker/api.py:326-359 | After a refused move between distributions the next pipeline is to use the current certificate again if and only if the refused move kept the domains, or it is an update that keeps those of the refused move |
| `Leftovers.TheCertificateStays` | broker/tasks/letsencrypt.py:93-343 | Then no certificate, order, upload or answer is added, whatever happens, and the one certificate stays current; when the pipeline finishes, all domains are served if and only if that certificate names them all |
| `Leftovers.ARenewalRenewsNothing` | broker/pipelines/cdn.py:77-91 | In particular a renewal goes through and leaves the instance with the certificate that expires |
| `Leftovers.ARenewalAfterARefusal` | broker/api.py:346-359 | It happens: a new instance is provisioned, its move is refused, and it is renewed |
| `Restarts.RestartAfterSelection` | broker/tasks/alb.py:120-136 | A restart between selection and promotion is harmless when the selection kept the listener; when it changed it, the run cannot finish without another restart and the old certificate stays attached to the listener the instance forgot |
| `StrandedService.StrandedDomainsAreServed` | broker/tasks/alb.py:180-207 | Nothing goes down: in such a run every domain that the old certificate served and the instance keeps is served at every moment, short of another restart |
| `Stranding.RotationGetsStranded` | broker/tasks/alb.py:20-38 | From any steady instance that is not on the least loaded of its candidates, tries alone bring the rotation to a point where a restart leaves it unfinished, whatever happens next short of another restart |
| `Stranding.ARenewalGetsStranded` | broker/pipelines/alb.py:76-94 | It happens: an instance provisioned beside an unused listener, and its renewal |
| `Restarts.DeletionFails` | broker/tasks/iam.py:157-174 | IAM refuses a certificate that is still attached, and the deletion stops there |
| `Deprovisioning.NothingIsLeft` | broker/pipelines/alb.py:35-51 | A finished deprovision of an instance between operations leaves no certificate of it in IAM or on a listener, no distribution, no record for its domains and none for its challenges, whatever happened to the run |
| `Deprovisioning.FinishedHasRemoved` | broker/tasks/iam.py:52-68 | From any state, a finished deprovision has removed what its tasks are for, and has added nothing |
| `Deprovisioning.CanBeFinished` | broker/pipelines/cdn.py:35-53 | Whatever has happened to it, tries alone can finish the deprovision of an instance that was between operations |
| `Deprovisioning.LeftInIam` | broker/tasks/iam.py:52-68 | From any state, what a finished deprovision has left in IAM of the instance's certificates is exactly what was neither current nor pending, or in another partition |
| `Deprovisioning.AnInterruptedRenewalLeaks` | broker/tasks/update_operations.py:62-73 | It happens: a deprovision that interrupts a renewal after its promotion leaves the old certificate in IAM |
| `Deprovisioning.HalfPlacedNeverFinishes` | broker/tasks/alb.py:161-177 | An instance with a listener and no certificate is never deprovisioned: the certificate is looked up whenever there is a listener, and that raises |
| `Deprovisioning.ACanceledProvisioningStays` | broker/tasks/update_operations.py:62-73 | It happens: a provisioning canceled between the choice of a listener and the promotion |
| `Deprovisioning.QueueIsTheChain` | broker/pipelines/cdn_dedicated_waf.py:53-78 | The deprovision queues of Operations are these chains, task by task |
| `MonitoringRuns.NoMonitoringIsLeft` | broker/pipelines/cdn_dedicated_waf.py:61-72 | A deprovision that has gone through its tasks, some more than once, leaves no check, alarm, association or topic, and deletes checks only when none is associated |
| `ProvisioningRuns.ProvisioningIsConfluent` | broker/pipelines/alb.py:11-32 | Restart confluence: whatever retries and restarts before the certificate is in use, a finished provisioning is in one goal state (one account, one row, one order, one challenge per domain answered at most once, one upload, one place), and that state is steady |
| `ProvisioningRuns.ProvisioningCanFinish` | broker/pipelines/cdn.py:11-32 | Whatever faults and restarts it has had, a provisioning run is never stuck: retries alone can finish it |
| `ProvisioningRuns.EveryAnswerWasLive` | broker/tasks/letsencrypt.py:176-228 | At every moment of such a run the answers sent are those of a prefix of the domains, each sent once and live |
| `ProvisioningRuns.PipelineIsOnTrack` | broker/pipelines/dedicated_alb.py:12-38 | The four provisioning pipelines go through the levels in order |
| `Provisioning.UserProgress` | broker/tasks/letsencrypt.py:54-90 | One account with the authority, however often the task runs |
| `Provisioning.KeyProgress` | broker/tasks/letsencrypt.py:93-127 | One certificate row, however often the task runs |
| `Provisioning.OrderProgress` | broker/tasks/letsencrypt.py:130-173 | One order with one challenge for each domain |
| `Provisioning.OrderIsExact` | broker/tasks/letsencrypt.py:130-173 | A new order has one open challenge for each domain, in order, with this order's contents, marked valid exactly where the authority has authorized the domain; nothing else changes |
| `Provisioning.TxtProgress` | broker/tasks/route53.py:12-44 | After the loop every open challenge's record is written and its change stored |
| `Provisioning.AnswerOneProgress` | broker/tasks/letsencrypt.py:206-228 | A challenge is answered only when its record is live, and never twice |
| `Provisioning.RetrieveProgress` | broker/tasks/letsencrypt.py:231-343 | The certificate is retrieved once, when all challenges are answered |
| `Provisioning.UploadProgress` | broker/tasks/iam.py:86-140 | One upload of the retrieved certificate |
| `Provisioning.SelectProgress` | broker/tasks/alb.py:120-136 | A listener chosen before a restart is kept |
| `Provisioning.AddProgress` | broker/tasks/alb.py:139-158 | Attaching reaches the goal's attachments and promotes the one certificate |
| `Provisioning.CreateDistributionProgress` | broker/tasks/cloudfront.py:133-220 | Creating the distribution reaches the goal and promotes the one certificate |
| `ChallengeLiveness.EveryChallengeIsLive` | broker/tasks/letsencrypt.py:176-228 | In every pipeline, whatever faults, rejections and restarts, each challenge sent to the authority had its record with its contents in the zone and in sync |
| `ChallengeLiveness.RemovalSparesOpenChallenges` | broker/tasks/route53.py:56-71 | Removing old DNS records never takes a TXT record that an open challenge needs |
| `ChallengeLiveness.PipelineIsOrdered` | broker/pipelines/cdn.py:11-91 | Every pipeline writes TXT records, then waits, then answers |
| `References.ReferencesNeverDangle` | broker/models.py:97-135 | After any run, with restarts even after a promotion, the three certificate columns name existing rows and the current certificate is issued, uploaded and in IAM; the next operation may begin there, unless a move to a distribution is unfinished |
| `References.ReferencesStayOverOperations` | broker/models.py:97-135 | The same over any sequence of operations, each finished or given up, with the requests between them |
| `References.RejectionIsSound` | broker/tasks/letsencrypt.py:315-328 | A validation failure removes the pending row and nothing else |
| `References.DeleteIsSound` | broker/tasks/iam.py:143-154 | Deleting previous certificates spares the current one, row and IAM certificate |
| `References.PromotionIsSound` | broker/tasks/alb.py:155-158 | What is promoted can be served |
| `UnchangedUpdate.UnchangedUpdateIsIdentity` | broker/api.py:335-361 | A CDN update for the same domains leaves certificate rows, IAM, the distribution's certificate, answers and TXT records as they were at every moment, and ends with no pending certificate |
| `UnchangedUpdate.AcmeTaskIsIdle` | broker/tasks/letsencrypt.py:93-343 | Each ACME, TXT and IAM step then does nothing and succeeds |
| `ChangeIds.WaitStoresTheSuffix` | broker/tasks/route53.py:74-93 | A wait that fails at the k-th id has stored exactly the suffix that starts there, duplicates included |
| `ChangeIds.RetriesDrain` | broker/tasks/route53.py:74-93 | However failures fall, retries wait for the ids in order, each once |
| `ChangeIds.RetriesFinish` | broker/tasks/route53.py:74-93 | With enough calls in all, every id was waited for and the list is empty |
| `TaskBodies.ServiceInstance.InitiateChallenges` | broker/tasks/letsencrypt.py:130-173 | Order and challenges are committed together, one challenge per domain in order; a domain without an authorization fails before that |
| `TaskBodies.ServiceInstance.AnswerChallenges` | broker/tasks/letsencrypt.py:176-228 | The loop with its commit per challenge: stopped at any call, the challenges before it are answered and the others are as they were |
| `TaskBodies.ServiceInstance.CreateTxtRecords` | broker/tasks/route53.py:12-44 | The loop with its commit per record: stopped at any call, the records before it are written and their change ids stored |
| `TaskBodies.ServiceInstance.WaitForChanges` | broker/tasks/route53.py:74-93 | The loop over a copy, with removal by value; what is stored is a suffix of the list |
| `TaskBodies.ServiceInstance.RemoveOldDnsRecords` | broker/tasks/route53.py:56-71 | The loop removes the records of the current certificate's challenges whose domains are gone, and only exact matches |
| `TaskBodies.ServiceInstance.CreateAliasRecords` | broker/tasks/route53.py:96-142 | The loop with its commit per domain, in the order of the domains |
| `TaskBodies.ServiceInstance.DeletePreviousCertificates` | broker/tasks/iam.py:143-174 | IAM certificates one by one, the rows together at the end |
| `TaskBodies.ServiceInstance.GetLowestUsedAlb` | broker/tasks/alb.py:20-38 | List, stable sort, first: the first of the listeners with the fewest certificates |
| `TaskBodies.ServiceInstance.SelectFrom` | broker/tasks/alb.py:106-136 | The selection, kept by a provisioning that has one |
| `TaskBodies.ServiceInstance.CreateDistribution` | broker/tasks/cloudfront.py:133-220 | Return early when there is one; else create, remember, promote |
| `TaskBodies.ServiceInstance.RemoveAliasRecords` | broker/tasks/route53.py:145-152 | The loop over the domains deletes exact matches |
| `TaskBodies.ServiceInstance.RemoveTxtRecords` | broker/tasks/route53.py:47-53 | The nested loops over certificate rows and challenges |
| `TaskBodies.ServiceInstance.RemoveCertificateFromAlb` | broker/tasks/alb.py:161-177 | The lookup that raises, and the removal |
| `TaskBodies.ServiceInstance.DeleteCertificates` | broker/tasks/iam.py:52-68 | The pending certificate first, then the current one, each only if it was uploaded |
| `TaskBodies.RemoveFirst` | broker/tasks/route53.py:90 | Removing by value takes one occurrence, and the head when the head is the value |
| `TaskBodies.FirstIsLowest` | broker/tasks/alb.py:33-37 | The first after the stable sort is the first of the least used |
| `Records.LowestIsFirst` | broker/tasks/alb.py:33-37 | No listener before the chosen one has as few certificates |
| `OperationResults.AtMostOneActive` | broker/models.py:144-151 | Over all runs, at most one operation other than a deprovision is active on an instance |
| `OperationResults.NothingComesBack` | broker/tasks/update_operations.py:29-73 | No step returns an operation to in-progress, clears a cancellation, changes a settled or canceled operation, or revives a deactivated instance |
| `OperationResults.AfterCancellation` | broker/tasks/update_operations.py:13-73 | Once a deprovision has canceled the pending operations, and while it is in progress, every task that starts on the instance belongs to a deprovision |
| `OperationResults.DeactivatedForever` | broker/tasks/update_operations.py:47-59 | A deactivated instance never again has an active operation other than a deprovision |
| `OperationResults.CanceledIsFrozen` | broker/tasks/update_operations.py:13-26 | A canceled operation stays in progress and canceled, and none of its tasks starts |
| `OperationResults.RetryBudget` | broker/tasks/huey.py:42-80 | A task that keeps raising errors is tried once more than it has retries; then its pipeline is gone and the operation is failed exactly when the task had the operation id as a positional argument |
| `OperationResults.KeywordQueues` | broker/pipelines/cdn_dedicated_waf.py:53-78 | A queue holds a task without a positional operation id exactly when it deprovisions a distribution |
| `OperationStalls.StuckExactlyWhenLost` | broker/tasks/cron.py:104-151 | Over all runs, an operation in progress and not canceled has nothing queued if and only if some event left it so (a retrieval canceled itself, a task without a positional operation id failed for the last time, or it was an update of a migrating instance) and no scan has started it since |
| `OperationStalls.RejectionLosesThePipeline` | broker/tasks/letsencrypt.py:263-328 | After a rejected order the next try of the retrieval cancels itself: the pipeline is gone and the operation stays in progress, however many retries were left; only a rejection on the last try marks it failed |
| `OperationStalls.ARejectedOrderStalls` | broker/tasks/letsencrypt.py:263-267 | It happens: a provisioning whose order is invalid, from an empty database |
| `OperationStalls.ACdnDeprovisionStalls` | broker/pipelines/cdn.py:35-53 | It happens: a CDN deprovision whose distribution cannot be deleted, from an empty database |
| `UpdateRequests.RequestApplies` | broker/api.py:338-401 | A request that starts an operation leaves the row with the domains it names if and only if they are the ones it had, or the plan change does not forget them |
| `UpdateRequests.AMoveForgets` | broker/models.py:462-469 | It happens, from an empty database |
| `UpdateRequests.RefusalChanges` | broker/api.py:326-359 | A request that starts no operation changes the database if and only if it moves an instance between distributions, with no domains or accepted ones and with refused parameters, and the row so far differs: it has new domains, or keeps them and has another certificate than the current one as its new one, or none |
| `UpdateRequests.ARefusalChanges` | broker/api.py:346-359 | It happens, from an empty database |
| `UpdateRequests.RefusalLeavesTheCertificate` | broker/api.py:335-337 | If the domains were kept, the refused move has made the current certificate the new one, and has changed nothing else |
| `UpdateRequests.ARefusalLeavesTheCertificate` | broker/api.py:346-359 | It happens, from an empty database and without domains in the request |
| `UpdateRequests.MigratingUpdatesAreStuck` | broker/api.py:337-441 | An update of an instance with the type between a dedicated load balancer and a distribution is a no-op or starts an operation without a pipeline, and never changes the type |
| `UpdateRequests.ScanEndsAtAMove` | broker/tasks/cron.py:104-203 | The scan for stalled operations ends at the first one of such an instance: neither it nor any after it is started |
| `UpdateRequests.AFailedMoveCannotBeRepeated` | broker/api.py:386-401 | It happens, from an empty database: the move fails for good, the next request is left stuck, and scans end at it |
| `OperationSafety.NextIsSound` | broker/tasks/cron.py:48-151 | Every request, scan and task step keeps the invariant behind these results |
| `OperationSafety.KindIsShaped` | broker/pipelines/plan_updates.py:17-119 | In every pipeline but a deprovision the last task, and only it, settles the operation |
| `OperationSafety.CancelStepIsSound` | broker/tasks/update_operations.py:62-73 | After the cancellation no other operation of the instance is active |
| `OperationBodies.Database.HasActiveOperations` | broker/models.py:144-151 | The loop answers whether some operation of the instance is in progress and not canceled |
| `OperationBodies.Database.UpdateRequest` | broker/api.py:305-441 | The guards, the domains and the new certificate assigned, committed or forgotten, the type change, the no-op for unchanged load balancer instances, and the type that no branch is for: the database ends as the request's function says |
| `OperationBodies.Database.ScanForExpiringCerts` | broker/tasks/cron.py:65-101 | The loop renews exactly the instances that are not deactivated and have no active operation |
| `OperationBodies.Database.ScanForStalledPipelines` | broker/tasks/cron.py:143-151 | Exactly the idle operations in progress that are not canceled |
| `OperationBodies.Database.CancelPendingProvisioning` | broker/tasks/update_operations.py:62-73 | The loop cancels exactly the instance's operations in progress that are not deprovisions |
| `OperationBodies.Database.RunTask` | broker/tasks/huey.py:83-120 | The pre-execute check, the body or its own cancellation, and the way of a task that raises, with what its next try will find |
| `Listeners.CapacityAndIsolation` | broker/tasks/alb.py:41-117 | Over all interleavings no dedicated listener has more than 19 active dedicated instances by database count, and all of them are of its organization |
| `Listeners.OrganizationsStay` | broker/models.py:423-446 | A listener keeps the organization it was first loaded with |
| `Listeners.SelectionIsExact` | broker/tasks/alb.py:82-117 | A provisioning started again keeps its listener; without room the selection raises and changes nothing; any other selection puts the instance on a listener of its organization that had room, and changes nothing else |
| `Listeners.SelectsTheLeastUsed` | broker/tasks/alb.py:82-103 | The listener selected has the fewest certificates in AWS of those with room, and among equals is the first by ARN |
| `Listeners.FullListenerIsLeft` | broker/tasks/alb.py:41-79 | The count includes the instance itself: a renewal never stays on a full listener |
| `ListenerCapacity.RaisesExactlyWhenFull` | broker/tasks/alb.py:41-117 | Over all runs, the selection of a dedicated instance's renewal or update raises if and only if every listener of its organization has 19 active instances, itself counted |
| `ListenerCapacity.AFullOrganizationCannotRenew` | broker/tasks/alb.py:41-79 | It happens: nineteen instances provisioned on the one listener of an organization, none of which can be renewed |
| `ListenerBodies.Placement.LoadAlbListeners` | broker/models.py:423-446 | The loop of inserts that do nothing on conflict; an empty list raises |
| `ListenerBodies.Placement.GetPotentialListeners` | broker/tasks/alb.py:41-79 | The listeners of the organization with fewer than 19 active dedicated instances |
| `ListenerBodies.Placement.SelectDedicatedAlb` | broker/tasks/alb.py:82-117 | Count, sort, choose, assign; raises exactly when no listener has room |
| `Domains.DomainsAreUnique` | broker/api.py:187-195 | Over any provisions, updates and deprovisions the domains of two active instances are disjoint, case and surrounding whitespace aside, and no domain is empty |
| `Domains.EmptyDomainIsRefused` | broker/validators.py:32-56 | A request that names the empty domain, alone or among others, is refused: its challenge name would have to lead to a name with an empty label |
| `Domains.ARepeatedDomainIsAccepted` | broker/validators.py:28-30 | A request that lists a domain twice is accepted, and the row lists it twice |
| `Domains.SameDomainsAreNoChange` | broker/lib/utils.py:57-68 | A request is no change exactly when it names the same domains as often, in any order; otherwise all of it is applied |
| `Domains.OwnDomainsArePermitted` | broker/validators.py:85-103 | An instance never stands in the way of its own domains |
| `Domains.ProvisionStores` | broker/api.py:187-255 | A provisioning is stored if and only if it names domains, all CNAME records are in place, no other active instance has one of them, and the id is new |
| `Domains.UpdateStores` | broker/api.py:326-367 | An update changes the domains if and only if they are accepted, the instance is active, they are not the ones it has, and the request goes on to commit them |
| `Domains.DeactivationFreesDomains` | broker/validators.py:85-103 | Once its instance is deactivated, a domain can be given to another one |
| `Domains.TextIsAList` | broker/lib/utils.py:49-54 | A text is split at its commas: it means the list of its items |
| `Domains.ItemsAreNames` | broker/lib/utils.py:53-54 | Each item stands for the name between its whitespace, in lower case and otherwise as given |
| `Domains.NormalIsNormal` | broker/lib/utils.py:49-54 | Parsed domains are trimmed and lower-case, and stay so |
| `Domains.UniqueDomainErrors` | broker/validators.py:59-83 | One error for every non-empty domain asked for that another active instance has |
| `Cname.ErrorForDomain` | broker/validators.py:32-56 | The loop terminates on every zone and accepts exactly when the target is reachable; otherwise it reports missing, loop or wrong end exactly as the chain is empty, cyclic, or ends elsewhere |
| `Cname.Validate` | broker/validators.py:10-30 | A request passes exactly when every domain's target is reached |
| `Hostname.AcceptanceIsTheGrammar` | broker/validators.py:166-200 | The regular expression with the length check accepts exactly the strings of 2 to 63 labels of 1 to 63 letters, digits or hyphens, alphanumeric at both ends, the last of at least 2 characters, at most 253 in all |
| `Hostname.LongMatches` | broker/validators.py:180-188 | The long label expression is its grammar |
| `Strings.SplitJoin` | broker/validators.py:178-193 | Splitting on dots undoes joining labels |
| `Strings.SortedAlike` | broker/lib/utils.py:65-66 | Two lists sort alike exactly when they hold the same strings as often |
| `Strings.LeqIs` | broker/lib/utils.py:65-66 | The order of strings: a prefix comes first, and otherwise the smaller character where they first differ |
| `Strings.StripIs` | broker/lib/utils.py:54 | Stripping takes whitespace off both ends and nothing else |
| `Strings.CaseIs` | broker/lib/utils.py:45-54 | Upper and lower case belong together letter by letter, and nothing but letters changes |
| `Hostname.AlphanumericsAre` | broker/validators.py:180-188 | The class of the expression: letters of both cases and digits |
| `CacheBehavior.UpdateDefaultCacheBehavior` | broker/tasks/cloudfront.py:90-130 | The copied dictionary is rewritten as specified and the input is unchanged |
| `CacheBehavior.ExactlyOne` | broker/tasks/cloudfront.py:103-123 | Exactly one of CachePolicyId and ForwardedValues; no lifetimes beside a policy, and without one those there were |
| `CacheBehavior.PolicyIsKept` | broker/tasks/cloudfront.py:93-101 | A policy that is set stays unless the instance has its own |
| `CacheBehavior.OwnPolicyWins` | broker/tasks/cloudfront.py:93-130 | The instance's own policy wins, without one the policy that is set stays, and without that cookies and headers are those of the instance; an origin request policy is replaced by the instance's own and otherwise stays |
| `CacheBehavior.TheRestStays` | broker/tasks/cloudfront.py:90-130 | Every other key of the configuration is as it was |
| `CacheBehavior.RewritingIsIdempotent` | broker/tasks/cloudfront.py:90-130 | To rewrite twice is to rewrite once |
| `CacheBehavior.RewrittenIsUnique` | broker/tasks/cloudfront.py:90-130 | The specification has one result, every unrelated key as it was |
| `DuplicateCerts.GetMatchingListeners` | broker/commands/duplicate_certs.py:169-188 | What is found is always right; for distinct listeners the early stop finds what a full scan finds if and only if no place to stop has matched as many certificates as were asked for while there are more matches to come; and always when each duplicate is on at most one listener |
| `DuplicateCerts.ScansAgree` | broker/commands/duplicate_certs.py:172-188 | For distinct listeners, looking at more of them changes the map if and only if they hold some duplicate |
| `DuplicateCerts.TwoListenersCanFoolIt` | broker/commands/duplicate_certs.py:184-186 | With a duplicate on two listeners the early stop does miss one |
| `DuplicateCerts.Account.DeleteCertRecordAndResource` | broker/commands/duplicate_certs.py:140-166 | The row goes if and only if the removal does not raise and a named certificate, held by no other listener, is really off this one and IAM answers; its IAM certificate goes with it, and nothing attached is ever deleted from IAM |
| `DuplicateCerts.RemoveDuplicates` | broker/commands/duplicate_certs.py:229-241 | Of the duplicates exactly those rows go whose calls succeed and whose certificate is on no listener but the one the search found, judged on the account as it was before the first deletion |
| `CdnParams.HeadersStayNormal` | broker/lib/cdn.py:98-220 | Over one provisioning and any updates, headers are upper-case, strictly sorted, and contain HOST when the origin is the default |
| `CdnParams.AbsentKeysChangeNothing` | broker/lib/cdn.py:151-220 | A key absent from an update leaves its column as it was, but for HOST when the origin becomes the default |
| `CdnParams.RepeatedUpdateChangesNothing` | broker/lib/cdn.py:151-220 | An accepted update is accepted again and changes nothing |
| `CdnParams.ProvisionInsecureDefault` | broker/lib/cdn.py:124-132 | Plain HTTP to the default origin is provisioned exactly when the request names that origin itself |
| `CdnParams.UpdateInsecureDefault` | broker/lib/cdn.py:183-190 | An update leads to it exactly when the instance was on plain HTTP, the origin is now the default, and the protocol is not mentioned |
| `CdnParams.AnInsecureProvision` | broker/lib/cdn.py:124-132 | It happens: a provisioning that is accepted |
| `CdnParams.AnInsecureUpdate` | broker/lib/cdn.py:183-190 | It happens: an update that clears the origin of an instance on plain HTTP |
| `CdnParams.NormalizedIs` | broker/lib/utils.py:44-46 | Normalizing gives the upper-case forms, each once, in order |
| `CdnParams.CookiesAre` | broker/lib/utils.py:10-30 | No value and an asterisk forward all cookies, a blank value none, and any other text exactly the names between its commas |
| `CdnParams.HeadersAre` | broker/lib/utils.py:33-41 | Headers are the pieces between commas, or refused |
| `CdnParams.SpacesAreDropped` | broker/lib/utils.py:14 | Blanks go and everything else stays |
| `CdnParams.HeaderCharsAre` | broker/validators.py:143-147 | The characters a header may have |
| `CdnParams.ProvisionCarries` | broker/lib/cdn.py:98-148 | A provisioning stores what its keys say, and the defaults for those left out |
| `CdnParams.UpdateCarries` | broker/lib/cdn.py:151-220 | An update stores what its keys say; null or empty clears a column, but not a policy and not the email |
| `CdnParams.StoredStaysUsable` | broker/lib/cdn.py:98-220 | Over one provisioning and any updates: a valid or default origin, legal headers and error pages, an address where there are alarms, managed policies only |
| `CdnParams.ProvisionRefusals` | broker/lib/cdn.py:98-148 | A provisioning is refused if and only if origin, headers, error pages or policies are bad, plain HTTP has no origin of its own, or the address for alarms is missing |
| `CdnParams.UpdateRefusals` | broker/lib/cdn.py:151-220 | The same for an update, against the row it changes |
| `CdnParamBodies.CdnInstance.Provision` | broker/lib/cdn.py:98-148 | The columns assigned one by one, refused exactly as specified |
| `CdnParamBodies.CdnInstance.Update` | broker/lib/cdn.py:151-220 | The columns of the keys that are present, refused exactly as specified |
| `HealthChecks.ReconcileIsExact` | broker/pipelines/cdn_dedicated_waf.py:81-112 | After update steps that go through, a domain that had a check keeps it under its id, a new domain has as many as times listed, no other has any; the AWS checks are the recorded ones; one alarm per check; the association is a recorded check, if there is any, and the one it was if its domain stays |
| `HealthChecks.OneCheckPerDomain` | broker/tasks/route53.py:155-188 | Exactly one check per domain, exactly when no new domain is listed twice |
| `HealthChecks.CreationStops` | broker/tasks/route53.py:229-275 | Creating checks raises if and only if there is one to create and the instance has had one before: the caller references count from 0 on every call, and those used stay taken |
| `HealthChecks.NoDomainCanBeAdded` | broker/tasks/route53.py:253-275 | So an instance that has had a check never gets another domain: every update that adds one raises |
| `HealthChecks.AnAddedDomainStops` | broker/tasks/route53.py:253-275 | It happens to every instance that was provisioned with a domain |
| `HealthChecks.ARepeatedDomainHasTwoChecks` | broker/tasks/route53.py:155-188 | It happens: the provisioning of a new instance whose domain is listed twice makes two checks for it |
| `HealthChecks.ReconcileStops` | broker/tasks/shield.py:41-89 | The steps stop if and only if there is a check to create and the instance has had one before, or there is no topic, or an association is due and there is no protection |
| `HealthChecks.ProvisionIsExact` | broker/pipelines/cdn_dedicated_waf.py:19-50 | The provisioning steps leave the same picture |
| `MonitoringRuns.PipelinesMonitor` | broker/pipelines/cdn_dedicated_waf.py:81-112 | The whole pipelines, folded over health checks, alarms and association: the update of the plan with monitoring is the reconciliation, its provisioning and the moves to it are the setup, and no other pipeline touches them |
| `MonitoringRuns.MonitoringIsConfluent` | broker/tasks/cron.py:104-203 | Whatever calls fail and however often the pipeline is started again, also as the update of the plan a move leads to, a finished run leaves what its steps leave when they go through at once |
| `MonitoringRuns.DeletesOnlyUnassociated` | broker/pipelines/cdn_dedicated_waf.py:104-108 | Whenever such a run is about to delete unused checks, the associated one is for a domain of the instance and not among them |
| `HealthChecks.DeleteUnusedKeeps` | broker/tasks/route53.py:191-218 | Exactly the checks of removed domains are deleted, and never the associated one |
| `HealthChecks.CreateNewKeeps` | broker/tasks/route53.py:155-188 | When no call is refused, everything recorded stays, and listed domains without a check get one each time they are listed |
| `HealthChecks.ChecksAreSorted` | broker/tasks/route53.py:245-266 | What is recorded after new checks were created is in the order of the domains |
| `HealthCheckBodies.Monitored.CreateNewHealthChecks` | broker/tasks/route53.py:155-275 | The loops, with the caller references counted from 0, raise or do what the function says; when they raise, the list is as it was |
| `HealthCheckBodies.Monitored.DeleteUnusedHealthChecks` | broker/tasks/route53.py:191-299 | The loop that deletes by id and rebuilds the list |
| `HealthCheckBodies.Monitored.UpdateAssociatedHealthCheck` | broker/tasks/shield.py:41-89 | Disassociate, associate, or raise |
| `HealthCheckBodies.Monitored.DisassociateHealthCheck` | broker/tasks/shield.py:92-108 | Nothing is associated afterwards |
| `HealthCheckBodies.Monitored.CreateHealthCheckAlarms` | broker/tasks/cloudwatch.py:14-39 | One alarm for each check, or raise without a topic |

## Left out

- AWS, ACME, Redis, SMTP and Cloud Foundry calls beyond the effect a pipeline relies on; keys, CSRs, PEM bodies, tags, encryption, sleeps and timestamps. Expiry within thirty days, being stalled and being canceled are flags.
- Crash windows between an external call and its commit, such as an upload under another day's name, or a task that creates health checks, fails half-way and asks for them again under the same caller references.
- The migration plan and its pipelines.
- Rotations that start from a failed operation's leftover pending certificate; the rotation results start from a steady instance, and `Leftovers` from one whose current certificate is also its new one. That CloudFront may refuse a domain that its certificate does not name is not modelled.
- Deprovisions of instances with the type between a dedicated load balancer and a distribution, or of another plan than the request names.
- A DNS deletion that fails although the record matches: its error is ignored like any other, and the record stays.
- Restarts after a promotion, in the no-outage and confluence results: `RotationRuns.RotationIsSafe` admits a restart while the current certificate is still where the row says it is, `ProvisioningRuns.ProvisioningIsConfluent` before a certificate is in use. `References.ReferencesNeverDangle` and `ChallengeLiveness.EveryChallengeIsLive` admit them everywhere.
- The branch of the retrieval for an order that is already valid at the authority; polls with attempt counters, among them the wait for a certificate to leave a listener.
- Firewall and logging tasks, subscriptions and the attack alarm, which touch none of the modelled state; they appear in the pipelines as steps that can fail.
- Case-insensitivity of DNS, Unicode case and whitespace; Python's `lower`, `upper` and `strip` are modelled on ASCII.
- Bindings, the catalog, tag generation, configuration parsing, database migrations and command-line wiring, which would only add easy members.
