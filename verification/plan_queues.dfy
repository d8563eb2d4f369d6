/**
  Which pipeline is queued for which plan, by what it does: where its finished runs leave
  the instance, and which firewall and monitoring tasks it goes through.
 */
module PlanQueues {
  import opened Wrappers
  import opened Records
  import opened Tasks
  import opened Pipelines
  import opened Operations

  /** The tasks in which pipelines for different plans differ: those that choose or change
      the place of the certificate, those of the firewall, those of monitoring, the one that
      removes the records of dropped domains, and those that change the row or the state of
      the operation. */
  datatype Class = Placing | Guarding | Monitoring | Dropping | OnDuty

  predicate Is(t: Task, c: Class) {
    match c
    case Placing =>
      || t.SelectAlbTask? || t.SelectDedicatedAlbTask?
      || t.CreateDistributionTask? || t.UpdateDistributionTask? || t.UpdateCertificateTask?
    case Guarding => t.CreateWebAclTask? || t.PutWafLoggingTask? || t.AssociateWebAclTask?
    case Monitoring =>
      || t.CreateTopicTask? || t.UnsubscribeTopicTask? || t.SubscribeTopicTask?
      || t.CreateNewHealthChecksTask? || t.AssociateHealthCheckTask? || t.UpdateAssociatedHealthCheckTask?
      || t.DeleteUnusedHealthChecksTask? || t.DeleteHealthCheckAlarmsTask? || t.CreateHealthCheckAlarmsTask?
      || t.CreateDdosAlarmTask?
    case Dropping => t.RemoveOldDnsTask?
    case OnDuty => !DutyOf(t).Work?
  }

  /** The tasks of a class, in their order. */
  function Only(p: Pipeline, c: Class): seq<Task>
    decreases p
  {
    if p.Finished? then []
    else if Is(p.task, c) then [p.task] + Only(p.rest, c)
    else Only(p.rest, c)
  }

  // ---- the parts of the chains ----

  lemma Pass(t: Task, rest: Pipeline, c: Class)
    requires !Is(t, c)
    ensures Only(Then(t, rest), c) == Only(rest, c)
  {
  }

  lemma PassBoth(t: Task, u: Task, rest: Pipeline, c: Class)
    requires !Is(t, c) && !Is(u, c)
    ensures Only(Then(t, Then(u, rest)), c) == Only(rest, c)
  {
    Pass(u, rest, c);
    Pass(t, Then(u, rest), c);
  }

  lemma Take(t: Task, rest: Pipeline, c: Class)
    requires Is(t, c)
    ensures Only(Then(t, rest), c) == [t] + Only(rest, c)
  {
  }

  /** These tasks, when they are of the class. */
  function If(c: bool, tasks: seq<Task>): seq<Task> {
    if c then tasks else []
  }

  lemma One(t: Task, rest: Pipeline, c: Class)
    ensures Only(Then(t, rest), c) == If(Is(t, c), [t]) + Only(rest, c)
  {
  }

  /** Two tasks that are both of the class, or both not. */
  lemma TakeBoth(t: Task, u: Task, rest: Pipeline, c: Class)
    requires Is(t, c) <==> Is(u, c)
    ensures Only(Then(t, Then(u, rest)), c) == If(Is(t, c), [t, u]) + Only(rest, c)
  {
    hide Only, Is;
    if Is(t, c) {
      Take(u, rest, c);
      Take(t, Then(u, rest), c);
      assert [t] + ([u] + Only(rest, c)) == [t, u] + Only(rest, c);
    } else {
      PassBoth(t, u, rest, c);
    }
  }

  lemma InRetrieval(partition: Partition, rest: Pipeline, c: Class)
    ensures var p := Then(RetrieveCertificateTask, Then(UploadTask(partition), rest));
            Only(Then(AnswerChallengesTask, p), c) == If(c.OnDuty?, [RetrieveCertificateTask]) + Only(rest, c)
  {
    hide Only;
    var p := Then(RetrieveCertificateTask, Then(UploadTask(partition), rest));
    Pass(UploadTask(partition), rest, c);
    One(RetrieveCertificateTask, Then(UploadTask(partition), rest), c);
    Pass(AnswerChallengesTask, p, c);
  }

  lemma InIssue(partition: Partition, rest: Pipeline, c: Class)
    ensures Only(Issue(partition, rest), c)
         == If(c.OnDuty?, [GenerateKeyTask, RetrieveCertificateTask]) + Only(rest, c)
  {
    hide Only;
    var p := Then(RetrieveCertificateTask, Then(UploadTask(partition), rest));
    var q := Then(WaitForChangesTask, Then(AnswerChallengesTask, p));
    InRetrieval(partition, rest, c);
    Pass(WaitForChangesTask, Then(AnswerChallengesTask, p), c);
    PassBoth(InitiateChallengesTask, CreateTxtTask, q, c);
    One(GenerateKeyTask, Then(InitiateChallengesTask, Then(CreateTxtTask, q)), c);
  }

  lemma InReissue(partition: Partition, rest: Pipeline, c: Class)
    ensures Only(Reissue(partition, rest), c)
         == (match c
             case Dropping => [RemoveOldDnsTask]
             case OnDuty => [GenerateKeyTask, RetrieveCertificateTask]
             case _ => []) + Only(rest, c)
  {
    hide Only;
    var p := Then(RetrieveCertificateTask, Then(UploadTask(partition), rest));
    var v := Then(AnswerChallengesTask, p);
    var q := Then(RemoveOldDnsTask, v);
    var u := Then(CreateTxtTask, Then(WaitForChangesTask, q));
    InRetrieval(partition, rest, c);
    One(RemoveOldDnsTask, v, c);
    PassBoth(CreateTxtTask, WaitForChangesTask, q, c);
    Pass(InitiateChallengesTask, u, c);
    One(GenerateKeyTask, Then(InitiateChallengesTask, u), c);
  }

  lemma InPointDns(rest: Pipeline, c: Class)
    ensures Only(PointDns(rest), c) == Only(rest, c)
  {
    PassBoth(CreateAliasTask, WaitForChangesTask, rest, c);
  }

  /** The task at the end settles the operation. */
  lemma InEnd(t: Task, c: Class)
    requires t.ProvisionTask? || t.UpdateCompleteTask?
    ensures Only(Then(t, Finished), c) == If(c.OnDuty?, [t])
  {
  }

  lemma InCleanUp(partition: Partition, c: Class)
    ensures Only(CleanUpAlb(partition), c) == If(c.OnDuty?, [ProvisionTask])
  {
    hide Only;
    InEnd(ProvisionTask, c);
    PassBoth(RemoveFromPreviousAlbTask, DeletePreviousTask(partition), Then(ProvisionTask, Finished), c);
  }

  lemma InRetireAlb(partition: Partition, c: Class)
    ensures Only(RetireAlb(partition), c) == If(c.OnDuty?, [ChangeToCdnDedicatedWafTask, UpdateCompleteTask])
  {
    hide Only;
    var p := Then(ChangeToCdnDedicatedWafTask, Then(UpdateCompleteTask, Finished));
    InEnd(UpdateCompleteTask, c);
    One(ChangeToCdnDedicatedWafTask, Then(UpdateCompleteTask, Finished), c);
    PassBoth(RemoveAlbCertificateDuringUpdateToCdnTask, DeletePreviousTask(partition), p, c);
  }

  lemma InSelection(t: Task, rest: Pipeline, c: Class)
    requires t.SelectAlbTask? || t.SelectDedicatedAlbTask?
    ensures Only(Then(t, Then(AddCertificateToAlbTask, rest)), c)
         == (match c
             case Placing => [t]
             case OnDuty => [AddCertificateToAlbTask]
             case _ => []) + Only(rest, c)
  {
    hide Only;
    One(AddCertificateToAlbTask, rest, c);
    One(t, Then(AddCertificateToAlbTask, rest), c);
  }

  lemma InAlbWaf(rest: Pipeline, c: Class)
    ensures Only(AlbWaf(rest), c)
         == If(c.Guarding?, [CreateWebAclTask, PutWafLoggingTask, AssociateWebAclTask]) + Only(rest, c)
  {
    hide Only;
    One(AssociateWebAclTask, rest, c);
    TakeBoth(CreateWebAclTask, PutWafLoggingTask, Then(AssociateWebAclTask, rest), c);
  }

  lemma InRedistribute(rest: Pipeline, c: Class)
    ensures Only(Redistribute(rest), c) == If(c.Placing? || c.OnDuty?, [UpdateDistributionTask]) + Only(rest, c)
  {
    hide Only;
    var p := Then(DeletePreviousTask(Commercial), rest);
    Pass(DeletePreviousTask(Commercial), rest, c);
    InPointDns(p, c);
    Pass(WaitForDistributionTask, PointDns(p), c);
    One(UpdateDistributionTask, Then(WaitForDistributionTask, PointDns(p)), c);
  }

  lemma InCreation(rest: Pipeline, c: Class)
    ensures var p := Then(CreateDistributionTask, Then(WaitForDistributionTask, PointDns(rest)));
            Only(p, c) == If(c.Placing? || c.OnDuty?, [CreateDistributionTask]) + Only(rest, c)
  {
    hide Only;
    InPointDns(rest, c);
    Pass(WaitForDistributionTask, PointDns(rest), c);
    One(CreateDistributionTask, Then(WaitForDistributionTask, PointDns(rest)), c);
  }

  lemma InToNewDistribution(rest: Pipeline, c: Class)
    ensures Only(ToNewDistribution(rest), c)
         == (match c
             case Placing => [CreateDistributionTask]
             case Guarding => [CreateWebAclTask, PutWafLoggingTask]
             case OnDuty => [CreateDistributionTask]
             case _ => []) + Only(rest, c)
  {
    hide Only;
    InCreation(rest, c);
    TakeBoth(CreateWebAclTask, PutWafLoggingTask,
      Then(CreateDistributionTask, Then(WaitForDistributionTask, PointDns(rest))), c);
  }

  /** Monitoring from nothing. */
  const SETUP: seq<Task> :=
    [CreateTopicTask, SubscribeTopicTask, CreateNewHealthChecksTask, AssociateHealthCheckTask,
     CreateHealthCheckAlarmsTask, CreateDdosAlarmTask]

  /** Monitoring over what there is: what is no longer wanted goes only when the
      association is off it, and alarms are made for the checks that are left. */
  const RENEWED: seq<Task> :=
    [CreateTopicTask, UnsubscribeTopicTask, SubscribeTopicTask, CreateNewHealthChecksTask,
     UpdateAssociatedHealthCheckTask, DeleteUnusedHealthChecksTask, DeleteHealthCheckAlarmsTask,
     CreateHealthCheckAlarmsTask, CreateDdosAlarmTask]

  lemma InMonitor(rest: Pipeline, c: Class)
    ensures Only(Monitor(rest), c) == If(c.Monitoring?, SETUP) + Only(rest, c)
  {
    hide Only;
    var p := Then(CreateHealthCheckAlarmsTask, Then(CreateDdosAlarmTask, rest));
    var q := Then(CreateNewHealthChecksTask, Then(AssociateHealthCheckTask, p));
    TakeBoth(CreateHealthCheckAlarmsTask, CreateDdosAlarmTask, rest, c);
    TakeBoth(CreateNewHealthChecksTask, AssociateHealthCheckTask, p, c);
    TakeBoth(CreateTopicTask, SubscribeTopicTask, q, c);
  }

  lemma InCheckUpdates(rest: Pipeline, c: Class)
    ensures Only(CheckUpdates(rest), c) == If(c.Monitoring?, RENEWED[3..]) + Only(rest, c)
  {
    hide Only;
    var p := Then(CreateHealthCheckAlarmsTask, Then(CreateDdosAlarmTask, rest));
    var q := Then(DeleteUnusedHealthChecksTask, Then(DeleteHealthCheckAlarmsTask, p));
    TakeBoth(CreateHealthCheckAlarmsTask, CreateDdosAlarmTask, rest, c);
    TakeBoth(DeleteUnusedHealthChecksTask, DeleteHealthCheckAlarmsTask, p, c);
    TakeBoth(CreateNewHealthChecksTask, UpdateAssociatedHealthCheckTask, q, c);
  }

  lemma InUpdateMonitoring(rest: Pipeline, c: Class)
    ensures Only(UpdateMonitoring(rest), c) == If(c.Monitoring?, RENEWED) + Only(rest, c)
  {
    hide Only, CheckUpdates;
    var u := CheckUpdates(rest);
    InCheckUpdates(rest, c);
    One(SubscribeTopicTask, u, c);
    TakeBoth(CreateTopicTask, UnsubscribeTopicTask, Then(SubscribeTopicTask, u), c);
    assert [CreateTopicTask, UnsubscribeTopicTask] + ([SubscribeTopicTask] + RENEWED[3..]) == RENEWED;
  }

  // ---- the pipeline of each plan ----

  /** The firewall of a plan, if it has one; a distribution needs no association. */
  function Firewall(plan: Plan): seq<Task> {
    match plan
    case DedicatedAlb => [CreateWebAclTask, PutWafLoggingTask, AssociateWebAclTask]
    case CdnWaf => [CreateWebAclTask, PutWafLoggingTask]
    case _ => []
  }

  function SelectionFor(plan: Plan): Task
    requires !OnDistribution(plan)
  {
    if plan.Alb? then SelectAlbTask else SelectDedicatedAlbTask
  }

  lemma ProvisionTasks(plan: Plan, c: Class)
    ensures Only(TasksOf(ProvisionKind(plan)), c)
         == match c
            case Placing => [if OnDistribution(plan) then CreateDistributionTask else SelectionFor(plan)]
            case Guarding => Firewall(plan)
            case Monitoring => If(plan.CdnWaf?, SETUP)
            case Dropping => []
            case OnDuty =>
              [GenerateKeyTask, RetrieveCertificateTask,
               if OnDistribution(plan) then CreateDistributionTask else AddCertificateToAlbTask, ProvisionTask]
  {
    hide Only, Issue, PointDns, AlbWaf, ToNewDistribution, Monitor;
    var end := Then(ProvisionTask, Finished);
    var dns := PointDns(end);
    InEnd(ProvisionTask, c);
    InPointDns(end, c);
    match plan {
      case Alb =>
        InSelection(SelectAlbTask, dns, c);
        Provisioning(GovCloud, ToAlb(dns), c);
      case DedicatedAlb =>
        InAlbWaf(dns, c);
        InSelection(SelectDedicatedAlbTask, AlbWaf(dns), c);
        Provisioning(GovCloud, ToDedicatedAlb(AlbWaf(dns)), c);
      case Cdn =>
        InCreation(end, c);
        Provisioning(Commercial, Then(CreateDistributionTask, Then(WaitForDistributionTask, dns)), c);
      case CdnWaf =>
        InMonitor(end, c);
        InToNewDistribution(Monitor(end), c);
        Provisioning(Commercial, ToNewDistribution(Monitor(end)), c);
    }
  }

  lemma Provisioning(partition: Partition, rest: Pipeline, c: Class)
    ensures Only(Then(CreateUserTask, Issue(partition, rest)), c)
         == If(c.OnDuty?, [GenerateKeyTask, RetrieveCertificateTask]) + Only(rest, c)
  {
    InIssue(partition, rest, c);
    Pass(CreateUserTask, Issue(partition, rest), c);
  }

  lemma RenewalTasks(plan: Plan, c: Class)
    ensures Only(TasksOf(RenewKind(plan)), c)
         == match c
            case Placing => [if OnDistribution(plan) then UpdateCertificateTask else SelectionFor(plan)]
            case OnDuty =>
              [GenerateKeyTask, RetrieveCertificateTask,
               if OnDistribution(plan) then UpdateCertificateTask else AddCertificateToAlbTask, ProvisionTask]
            case _ => []
  {
    hide Only, Issue, PointDns, CleanUpAlb;
    if OnDistribution(plan) {
      var end := Then(ProvisionTask, Finished);
      var p := Then(DeletePreviousTask(Commercial), end);
      InEnd(ProvisionTask, c);
      Pass(DeletePreviousTask(Commercial), end, c);
      One(UpdateCertificateTask, p, c);
      InIssue(Commercial, Then(UpdateCertificateTask, p), c);
    } else {
      var p := PointDns(CleanUpAlb(GovCloud));
      InCleanUp(GovCloud, c);
      InPointDns(CleanUpAlb(GovCloud), c);
      InSelection(SelectionFor(plan), p, c);
      InIssue(GovCloud, Then(SelectionFor(plan), Then(AddCertificateToAlbTask, p)), c);
    }
  }

  lemma UpdateTasks(plan: Plan, c: Class)
    ensures Only(TasksOf(UpdateKind(plan)), c)
         == match c
            case Placing => [if OnDistribution(plan) then UpdateDistributionTask else SelectionFor(plan)]
            case Guarding => Firewall(plan)
            case Monitoring => If(plan.CdnWaf?, RENEWED)
            case Dropping => [RemoveOldDnsTask]
            case OnDuty =>
              if OnDistribution(plan)
              then [GenerateKeyTask, RetrieveCertificateTask, UpdateDistributionTask, UpdateCompleteTask]
              else [GenerateKeyTask, RetrieveCertificateTask, AddCertificateToAlbTask, ProvisionTask]
  {
    hide Only, Reissue, PointDns, CleanUpAlb, AlbWaf, Redistribute, UpdateMonitoring;
    var dns := PointDns(CleanUpAlb(GovCloud));
    InCleanUp(GovCloud, c);
    InPointDns(CleanUpAlb(GovCloud), c);
    var end := Then(UpdateCompleteTask, Finished);
    InEnd(UpdateCompleteTask, c);
    match plan {
      case Alb =>
        InSelection(SelectAlbTask, dns, c);
        InReissue(GovCloud, ToAlb(dns), c);
      case DedicatedAlb =>
        InAlbWaf(dns, c);
        InSelection(SelectDedicatedAlbTask, AlbWaf(dns), c);
        InReissue(GovCloud, ToDedicatedAlb(AlbWaf(dns)), c);
      case Cdn =>
        InRedistribute(end, c);
        InReissue(Commercial, Redistribute(end), c);
      case CdnWaf =>
        InUpdateMonitoring(end, c);
        var p := Redistribute(UpdateMonitoring(end));
        InRedistribute(UpdateMonitoring(end), c);
        TakeBoth(CreateWebAclTask, PutWafLoggingTask, p, c);
        InReissue(Commercial, Then(CreateWebAclTask, Then(PutWafLoggingTask, p)), c);
    }
  }

  lemma MoveTasks(from: Plan, to: Plan, c: Class)
    requires CanMove(from, to) && from != to
    ensures Only(TasksOf(MoveKind(from, to)), c)
         == match c
            case Placing =>
              [if to.DedicatedAlb? then SelectDedicatedAlbTask
               else if from.DedicatedAlb? then CreateDistributionTask else UpdateDistributionTask]
            case Guarding => if from.Cdn? then [CreateWebAclTask] else Firewall(to)
            case Monitoring => If(to.CdnWaf?, SETUP)
            case Dropping => If(from.DedicatedAlb?, [RemoveOldDnsTask])
            case OnDuty =>
              if from.Alb? then [AddCertificateToAlbTask, ProvisionTask]
              else if from.DedicatedAlb?
              then [GenerateKeyTask, RetrieveCertificateTask, CreateDistributionTask, ChangeToCdnDedicatedWafTask,
                    UpdateCompleteTask]
              else [GenerateKeyTask, RetrieveCertificateTask, UpdateDistributionTask, UpdateCompleteTask]
  {
    hide Only, Issue, Reissue, PointDns, AlbWaf, Redistribute, ToNewDistribution, Monitor, RetireAlb;
    if to.DedicatedAlb? {
      var end := Then(ProvisionTask, Finished);
      var p := Then(RemoveFromPreviousDuringUpdateToDedicatedTask, end);
      InEnd(ProvisionTask, c);
      Pass(RemoveFromPreviousDuringUpdateToDedicatedTask, end, c);
      InPointDns(p, c);
      InAlbWaf(PointDns(p), c);
      InSelection(SelectDedicatedAlbTask, AlbWaf(PointDns(p)), c);
    } else if from.DedicatedAlb? {
      var p := Monitor(RetireAlb(GovCloud));
      InRetireAlb(GovCloud, c);
      InMonitor(RetireAlb(GovCloud), c);
      InToNewDistribution(p, c);
      InReissue(Commercial, ToNewDistribution(p), c);
      Pass(StoreAlbCertificateTask, Reissue(Commercial, ToNewDistribution(p)), c);
    } else {
      var end := Then(UpdateCompleteTask, Finished);
      InEnd(UpdateCompleteTask, c);
      InMonitor(end, c);
      var p := Redistribute(Monitor(end));
      InRedistribute(Monitor(end), c);
      One(CreateWebAclTask, p, c);
      InIssue(Commercial, Then(CreateWebAclTask, p), c);
    }
  }
}
