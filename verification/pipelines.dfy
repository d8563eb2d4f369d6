/**
  The task pipelines and the machine that runs them.

  A pipeline is the chained expression of the source: a task, then the rest. A
  run holds the tasks still to do. A task that fails is retried by the worker
  with the same tasks to do; the stalled-operation scan starts the pipeline
  again from its first task.
 */
module Pipelines {
  import opened Records
  import opened Tasks

  datatype Task =
    | CreateUserTask | GenerateKeyTask | InitiateChallengesTask
    | CreateTxtTask | WaitForChangesTask | RemoveOldDnsTask
    | AnswerChallengesTask | RetrieveCertificateTask
    | UploadTask(partition: Partition)
    | SelectAlbTask | SelectDedicatedAlbTask | AddCertificateToAlbTask
    | CreateAliasTask
    | RemoveFromPreviousAlbTask | RemoveFromPreviousDuringUpdateToDedicatedTask
    | StoreAlbCertificateTask | RemoveAlbCertificateDuringUpdateToCdnTask
    | CreateDistributionTask | UpdateDistributionTask | UpdateCertificateTask | WaitForDistributionTask
    | DeletePreviousTask(partition: Partition)
      // tasks that touch neither certificates, DNS nor the listener
    | CreateWebAclTask | PutWafLoggingTask | AssociateWebAclTask
    | CreateTopicTask | UnsubscribeTopicTask | SubscribeTopicTask
    | CreateNewHealthChecksTask | AssociateHealthCheckTask | UpdateAssociatedHealthCheckTask
    | DeleteUnusedHealthChecksTask | DeleteHealthCheckAlarmsTask | CreateHealthCheckAlarmsTask
    | CreateDdosAlarmTask | ChangeToCdnDedicatedWafTask
    | ProvisionTask | UpdateCompleteTask

  datatype Pipeline = Finished | Then(task: Task, rest: Pipeline)

  datatype Kind =
    | AlbProvision | AlbUpdate | AlbRenewal
    | DedicatedProvision | DedicatedUpdate | DedicatedRenewal
    | CdnProvision | CdnUpdate | CdnRenewal
    | CdnWafProvision | CdnWafUpdate
    | AlbToDedicated | DedicatedToCdnWaf | CdnToCdnWaf

  // Each function below is the chain of one pipeline, or a part that several share;
  // `partition` is the AWS partition its new certificates are uploaded to.

  /** From the key to the uploaded certificate. */
  function Issue(partition: Partition, rest: Pipeline): Pipeline {
    var p := Then(RetrieveCertificateTask, Then(UploadTask(partition), rest));
    var p := Then(WaitForChangesTask, Then(AnswerChallengesTask, p));
    Then(GenerateKeyTask, Then(InitiateChallengesTask, Then(CreateTxtTask, p)))
  }

  /** The same for updates, which also drop the records of removed domains. */
  function Reissue(partition: Partition, rest: Pipeline): Pipeline {
    var p := Then(RetrieveCertificateTask, Then(UploadTask(partition), rest));
    var p := Then(RemoveOldDnsTask, Then(AnswerChallengesTask, p));
    var p := Then(CreateTxtTask, Then(WaitForChangesTask, p));
    Then(GenerateKeyTask, Then(InitiateChallengesTask, p))
  }

  function PointDns(rest: Pipeline): Pipeline {
    Then(CreateAliasTask, Then(WaitForChangesTask, rest))
  }

  function AlbWaf(rest: Pipeline): Pipeline {
    Then(CreateWebAclTask, Then(PutWafLoggingTask, Then(AssociateWebAclTask, rest)))
  }

  function CleanUpAlb(partition: Partition): Pipeline {
    Then(RemoveFromPreviousAlbTask, Then(DeletePreviousTask(partition), Then(ProvisionTask, Finished)))
  }

  function ToAlb(rest: Pipeline): Pipeline {
    Then(SelectAlbTask, Then(AddCertificateToAlbTask, rest))
  }

  function ToDedicatedAlb(rest: Pipeline): Pipeline {
    Then(SelectDedicatedAlbTask, Then(AddCertificateToAlbTask, rest))
  }

  function Monitor(rest: Pipeline): Pipeline {
    var p := Then(CreateHealthCheckAlarmsTask, Then(CreateDdosAlarmTask, rest));
    var p := Then(CreateNewHealthChecksTask, Then(AssociateHealthCheckTask, p));
    Then(CreateTopicTask, Then(SubscribeTopicTask, p))
  }

  function CheckUpdates(rest: Pipeline): Pipeline {
    var p := Then(CreateHealthCheckAlarmsTask, Then(CreateDdosAlarmTask, rest));
    var p := Then(DeleteUnusedHealthChecksTask, Then(DeleteHealthCheckAlarmsTask, p));
    Then(CreateNewHealthChecksTask, Then(UpdateAssociatedHealthCheckTask, p))
  }

  function UpdateMonitoring(rest: Pipeline): Pipeline {
    Then(CreateTopicTask, Then(UnsubscribeTopicTask, Then(SubscribeTopicTask, CheckUpdates(rest))))
  }

  function AlbProvisionTasks(partition: Partition): Pipeline {
    Then(CreateUserTask, Issue(partition, ToAlb(PointDns(Then(ProvisionTask, Finished)))))
  }

  function AlbUpdateTasks(partition: Partition): Pipeline {
    Reissue(partition, ToAlb(PointDns(CleanUpAlb(partition))))
  }

  function AlbRenewalTasks(partition: Partition): Pipeline {
    Issue(partition, ToAlb(PointDns(CleanUpAlb(partition))))
  }

  function DedicatedProvisionTasks(partition: Partition): Pipeline {
    Then(CreateUserTask, Issue(partition, ToDedicatedAlb(AlbWaf(PointDns(Then(ProvisionTask, Finished))))))
  }

  function DedicatedUpdateTasks(partition: Partition): Pipeline {
    Reissue(partition, ToDedicatedAlb(AlbWaf(PointDns(CleanUpAlb(partition)))))
  }

  function DedicatedRenewalTasks(partition: Partition): Pipeline {
    Issue(partition, ToDedicatedAlb(PointDns(CleanUpAlb(partition))))
  }

  function CdnProvisionTasks(partition: Partition): Pipeline {
    var p := PointDns(Then(ProvisionTask, Finished));
    Then(CreateUserTask, Issue(partition, Then(CreateDistributionTask, Then(WaitForDistributionTask, p))))
  }

  /** Update the distribution, point DNS at it and delete the previous certificate. */
  function Redistribute(rest: Pipeline): Pipeline {
    var p := PointDns(Then(DeletePreviousTask(Commercial), rest));
    Then(UpdateDistributionTask, Then(WaitForDistributionTask, p))
  }

  function CdnUpdateTasks(partition: Partition): Pipeline {
    Reissue(partition, Redistribute(Then(UpdateCompleteTask, Finished)))
  }

  function CdnRenewalTasks(partition: Partition): Pipeline {
    var p := Then(DeletePreviousTask(partition), Then(ProvisionTask, Finished));
    Issue(partition, Then(UpdateCertificateTask, p))
  }

  function CdnWafUpdateTasks(partition: Partition): Pipeline {
    var p := Redistribute(UpdateMonitoring(Then(UpdateCompleteTask, Finished)));
    Reissue(partition, Then(CreateWebAclTask, Then(PutWafLoggingTask, p)))
  }

  function AlbToDedicatedTasks(end: Pipeline): Pipeline {
    ToDedicatedAlb(AlbWaf(PointDns(Then(RemoveFromPreviousDuringUpdateToDedicatedTask, end))))
  }

  /** Take the load balancer's certificate away, from `partition`. */
  function RetireAlb(partition: Partition): Pipeline {
    var p := Then(ChangeToCdnDedicatedWafTask, Then(UpdateCompleteTask, Finished));
    Then(RemoveAlbCertificateDuringUpdateToCdnTask, Then(DeletePreviousTask(partition), p))
  }

  function ToNewDistribution(rest: Pipeline): Pipeline {
    var p := Then(CreateDistributionTask, Then(WaitForDistributionTask, PointDns(rest)));
    Then(CreateWebAclTask, Then(PutWafLoggingTask, p))
  }

  function DedicatedToCdnWafTasks(partition: Partition): Pipeline {
    Then(StoreAlbCertificateTask, Reissue(partition, ToNewDistribution(Monitor(RetireAlb(GovCloud)))))
  }

  function CdnToCdnWafTasks(partition: Partition): Pipeline {
    var p := Redistribute(Monitor(Then(UpdateCompleteTask, Finished)));
    Issue(partition, Then(CreateWebAclTask, p))
  }

  function CdnWafProvisionTasks(partition: Partition): Pipeline {
    var p := Monitor(Then(ProvisionTask, Finished));
    Then(CreateUserTask, Issue(partition, ToNewDistribution(p)))
  }

  function TasksOf(kind: Kind): Pipeline {
    match kind
    case AlbProvision => AlbProvisionTasks(GovCloud)
    case AlbUpdate => AlbUpdateTasks(GovCloud)
    case AlbRenewal => AlbRenewalTasks(GovCloud)
    case DedicatedProvision => DedicatedProvisionTasks(GovCloud)
    case DedicatedUpdate => DedicatedUpdateTasks(GovCloud)
    case DedicatedRenewal => DedicatedRenewalTasks(GovCloud)
    case CdnProvision => CdnProvisionTasks(Commercial)
    case CdnWafProvision => CdnWafProvisionTasks(Commercial)
    case CdnUpdate => CdnUpdateTasks(Commercial)
    case CdnRenewal => CdnRenewalTasks(Commercial)
    case CdnWafUpdate => CdnWafUpdateTasks(Commercial)
    case AlbToDedicated => AlbToDedicatedTasks(Then(ProvisionTask, Finished))
    case DedicatedToCdnWaf => DedicatedToCdnWafTasks(Commercial)
    case CdnToCdnWaf => CdnToCdnWafTasks(Commercial)
  }

  predicate Provisions(kind: Kind) {
    kind.AlbProvision? || kind.DedicatedProvision? || ToDistribution(kind)
  }

  /** A provisioning pipeline that puts the certificate on a new distribution. */
  predicate ToDistribution(kind: Kind) {
    kind.CdnProvision? || kind.CdnWafProvision?
  }

  /** Run one task with a budget of external calls. */
  function Execute(task: Task, provisioning: bool, s: State, budget: nat): Outcome {
    match task
    case CreateUserTask => CreateUser(s, budget)
    case GenerateKeyTask => GenerateKey(s, budget)
    case InitiateChallengesTask => InitiateChallenges(s, budget)
    case CreateTxtTask => CreateTxtRecords(s, budget)
    case WaitForChangesTask => WaitForChanges(s, budget)
    case RemoveOldDnsTask => RemoveOldDnsRecords(s)
    case AnswerChallengesTask => AnswerChallenges(s, budget)
    case RetrieveCertificateTask => RetrieveCertificate(s, budget)
    case UploadTask(partition) => UploadServerCertificate(s, partition, budget)
    case SelectAlbTask => SelectAlb(s, provisioning, budget)
    case SelectDedicatedAlbTask => SelectDedicatedAlb(s, provisioning, budget)
    case AddCertificateToAlbTask => AddCertificateToAlb(s, budget)
    case CreateAliasTask => CreateAliasRecords(s, budget)
    case RemoveFromPreviousAlbTask => RemoveCertificateFromPreviousAlb(s, budget)
    case RemoveFromPreviousDuringUpdateToDedicatedTask => RemoveFromPreviousAlbDuringUpdateToDedicated(s, budget)
    case StoreAlbCertificateTask => StoreAlbCertificate(s)
    case RemoveAlbCertificateDuringUpdateToCdnTask => RemoveAlbCertificateDuringUpdateToCdn(s, budget)
    case CreateDistributionTask => CreateDistribution(s, budget)
    case UpdateDistributionTask => UpdateDistribution(s, budget)
    case UpdateCertificateTask => UpdateDistribution(s, budget)
    case WaitForDistributionTask => WaitForDistribution(s, budget)
    case DeletePreviousTask(partition) => DeletePreviousCertificates(s, partition, budget)
    case _ => if budget == 0 then Failed(s) else Done(s)
  }

  datatype Run = Run(state: State, kind: Kind, todo: Pipeline)

  /**
    What can happen to an operation.
    - Try: the worker runs the next task; when an external call fails the task is
      queued again.
    - Reject: the authority rejects the order while the certificate is retrieved.
    - Restart: the stalled-operation scan starts the pipeline again, or another one.
    - Churn: other tenants put their certificates on a listener, and other
      placements change which dedicated listeners have room.
   */
  datatype Event =
    | Try(budget: nat)
    | Reject
    | Restart
    | Churn(listener: Listener, foreign: set<nat>, open: seq<Listener>)

  function ForeignArns(ids: set<nat>): set<Arn> {
    set id | id in ids :: Foreign(id)
  }

  function OwnArns(arns: set<Arn>): set<Arn> {
    set a | a in arns && a.Own?
  }

  function ChurnListener(s: State, l: Listener, foreign: set<nat>, open: seq<Listener>): State {
    var s' := s.(dedicated := open);
    if l in s.attached then s'.(attached := s.attached[l := OwnArns(s.attached[l]) + ForeignArns(foreign)]) else s'
  }

  /** The scan queues by the plan that the instance has by now, so a move between plans
      goes on as an update of the plan it leads to. */
  function RestartKind(kind: Kind): Kind {
    match kind
    case AlbToDedicated => DedicatedUpdate
    case CdnToCdnWaf => CdnWafUpdate
    case _ => kind
  }

  function Begin(s: State, kind: Kind): Run {
    Run(s, kind, TasksOf(kind))
  }

  function Step(r: Run, e: Event): Run {
    match e
    case Try(budget) =>
      if r.todo.Finished? then r
      else
        var o := Execute(r.todo.task, Provisions(r.kind), r.state, budget);
        Run(o.state, r.kind, if o.ok then r.todo.rest else r.todo)
    case Reject =>
      if r.todo.Then? && r.todo.task.RetrieveCertificateTask? then r.(state := RejectOrder(r.state)) else r
    case Restart =>
      // there is no pipeline for the type that a move to a distribution gives the instance
      if r.todo.Finished? || r.kind.DedicatedToCdnWaf? then r else Begin(r.state, RestartKind(r.kind))
    case Churn(l, foreign, open) =>
      r.(state := ChurnListener(r.state, l, foreign, open))
  }

  function Steps(r: Run, events: seq<Event>): Run
    decreases |events|
  {
    if events == [] then r else Steps(Step(r, events[0]), events[1..])
  }

  /** A run stays a run of the pipeline it began with, but for a move between plans. */
  lemma {:induction false} KindStays(r: Run, events: seq<Event>)
    ensures Steps(r, events).kind == r.kind || Steps(r, events).kind == RestartKind(r.kind)
    decreases |events|
  {
    hide Execute, RejectOrder, ChurnListener;
    if events != [] { KindStays(Step(r, events[0]), events[1..]); }
  }
}
