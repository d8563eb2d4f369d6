/**
  Every pipeline that rotates a certificate follows the phase order of module
  Rotation: each lemma walks one part of a chain, from its last task to its first.
 */
module PhaseOrder {
  import opened Records
  import opened Pipelines
  import opened Rotation

  lemma Stays(ph: Phase, t: Task, rest: Pipeline, g: Plan, all: bool)
    requires Allowed(ph, t, g, all) && Next(ph, t) == ph && Safe(ph, rest, g, all)
    ensures Safe(ph, Then(t, rest), g, all)
  {
  }

  lemma Moves(ph: Phase, t: Task, rest: Pipeline, g: Plan, all: bool)
    requires Allowed(ph, t, g, all) && Safe(Next(ph, t), rest, g, all)
    ensures Safe(ph, Then(t, rest), g, all)
  {
  }

  lemma IssueIsSafe(p: Partition, rest: Pipeline, g: Plan, all: bool)
    requires p == (if g.toCdn then Commercial else GovCloud) && Safe(START, rest, g, all)
    ensures Safe(START, Issue(p, rest), g, all)
  {
    var p6 := Then(UploadTask(p), rest);
    Stays(START, UploadTask(p), rest, g, all);
    var p5 := Then(RetrieveCertificateTask, p6);
    Stays(START, RetrieveCertificateTask, p6, g, all);
    var p4 := Then(AnswerChallengesTask, p5);
    Stays(START, AnswerChallengesTask, p5, g, all);
    var p3 := Then(WaitForChangesTask, p4);
    Stays(START, WaitForChangesTask, p4, g, all);
    var p2 := Then(CreateTxtTask, p3);
    Stays(START, CreateTxtTask, p3, g, all);
    var p1 := Then(InitiateChallengesTask, p2);
    Stays(START, InitiateChallengesTask, p2, g, all);
    Stays(START, GenerateKeyTask, p1, g, all);
  }

  lemma ReissueIsSafe(p: Partition, rest: Pipeline, g: Plan, all: bool)
    requires p == (if g.toCdn then Commercial else GovCloud) && Safe(START, rest, g, all)
    ensures Safe(START, Reissue(p, rest), g, all)
  {
    var p7 := Then(UploadTask(p), rest);
    Stays(START, UploadTask(p), rest, g, all);
    var p6 := Then(RetrieveCertificateTask, p7);
    Stays(START, RetrieveCertificateTask, p7, g, all);
    var p5 := Then(AnswerChallengesTask, p6);
    Stays(START, AnswerChallengesTask, p6, g, all);
    var p4 := Then(RemoveOldDnsTask, p5);
    Stays(START, RemoveOldDnsTask, p5, g, all);
    var p3 := Then(WaitForChangesTask, p4);
    Stays(START, WaitForChangesTask, p4, g, all);
    var p2 := Then(CreateTxtTask, p3);
    Stays(START, CreateTxtTask, p3, g, all);
    var p1 := Then(InitiateChallengesTask, p2);
    Stays(START, InitiateChallengesTask, p2, g, all);
    Stays(START, GenerateKeyTask, p1, g, all);
  }

  lemma AlarmsAreSafe(ph: Phase, rest: Pipeline, g: Plan, all: bool)
    requires Safe(ph, rest, g, all)
    ensures Safe(ph, Then(CreateHealthCheckAlarmsTask, Then(CreateDdosAlarmTask, rest)), g, all)
  {
    Stays(ph, CreateDdosAlarmTask, rest, g, all);
    Stays(ph, CreateHealthCheckAlarmsTask, Then(CreateDdosAlarmTask, rest), g, all);
  }

  lemma MonitorIsSafe(ph: Phase, rest: Pipeline, g: Plan, all: bool)
    requires Safe(ph, rest, g, all)
    ensures Safe(ph, Monitor(rest), g, all)
  {
    AlarmsAreSafe(ph, rest, g, all);
    var p := Then(CreateHealthCheckAlarmsTask, Then(CreateDdosAlarmTask, rest));
    var q := Then(AssociateHealthCheckTask, p);
    Stays(ph, AssociateHealthCheckTask, p, g, all);
    var u := Then(CreateNewHealthChecksTask, q);
    Stays(ph, CreateNewHealthChecksTask, q, g, all);
    Stays(ph, SubscribeTopicTask, u, g, all);
    Stays(ph, CreateTopicTask, Then(SubscribeTopicTask, u), g, all);
  }

  lemma CheckUpdatesAreSafe(ph: Phase, rest: Pipeline, g: Plan, all: bool)
    requires Safe(ph, rest, g, all)
    ensures Safe(ph, CheckUpdates(rest), g, all)
  {
    AlarmsAreSafe(ph, rest, g, all);
    var p := Then(CreateHealthCheckAlarmsTask, Then(CreateDdosAlarmTask, rest));
    var u1 := Then(DeleteHealthCheckAlarmsTask, p);
    Stays(ph, DeleteHealthCheckAlarmsTask, p, g, all);
    var u2 := Then(DeleteUnusedHealthChecksTask, u1);
    Stays(ph, DeleteUnusedHealthChecksTask, u1, g, all);
    var u3 := Then(UpdateAssociatedHealthCheckTask, u2);
    Stays(ph, UpdateAssociatedHealthCheckTask, u2, g, all);
    Stays(ph, CreateNewHealthChecksTask, u3, g, all);
  }

  lemma UpdateMonitoringIsSafe(ph: Phase, rest: Pipeline, g: Plan, all: bool)
    requires Safe(ph, rest, g, all)
    ensures Safe(ph, UpdateMonitoring(rest), g, all)
  {
    CheckUpdatesAreSafe(ph, rest, g, all);
    var p := CheckUpdates(rest);
    Stays(ph, SubscribeTopicTask, p, g, all);
    Stays(ph, UnsubscribeTopicTask, Then(SubscribeTopicTask, p), g, all);
    Stays(ph, CreateTopicTask, Then(UnsubscribeTopicTask, Then(SubscribeTopicTask, p)), g, all);
  }

  lemma PointDnsIsSafe(detached: bool, rest: Pipeline, g: Plan, all: bool)
    requires Safe(Phase(Synced, detached, false), rest, g, all)
    ensures Safe(Phase(Promoted, detached, false), PointDns(rest), g, all)
  {
    Moves(Phase(Aliased, detached, false), WaitForChangesTask, rest, g, all);
    Moves(Phase(Promoted, detached, false), CreateAliasTask, Then(WaitForChangesTask, rest), g, all);
  }

  lemma AlbWafIsSafe(ph: Phase, rest: Pipeline, g: Plan, all: bool)
    requires Safe(ph, rest, g, all)
    ensures Safe(ph, AlbWaf(rest), g, all)
  {
    Stays(ph, AssociateWebAclTask, rest, g, all);
    Stays(ph, PutWafLoggingTask, Then(AssociateWebAclTask, rest), g, all);
    Stays(ph, CreateWebAclTask, Then(PutWafLoggingTask, Then(AssociateWebAclTask, rest)), g, all);
  }

  lemma DeleteIsSafe(p: Partition, rest: Pipeline, g: Plan, all: bool)
    requires p == PartitionAt(g.place) && Safe(Phase(Synced, true, true), rest, g, all)
    ensures Safe(Phase(Synced, true, false), Then(DeletePreviousTask(p), rest), g, all)
  {
    Moves(Phase(Synced, true, false), DeletePreviousTask(p), rest, g, all);
  }

  lemma EndIsSafe(t: Task, g: Plan, all: bool)
    requires t.ProvisionTask? || t.UpdateCompleteTask?
    ensures Safe(Phase(Synced, true, true), Then(t, Finished), g, all)
    ensures g.reuse ==> Safe(Phase(Synced, true, false), Then(t, Finished), g, all)
  {
  }

  lemma CleanUpIsSafe(g: Plan, all: bool)
    requires g.place.AtListener? && !g.toCdn
    ensures Safe(Phase(Promoted, false, false), PointDns(CleanUpAlb(GovCloud)), g, all)
  {
    EndIsSafe(ProvisionTask, g, all);
    var end := Then(ProvisionTask, Finished);
    DeleteIsSafe(GovCloud, end, g, all);
    Moves(Phase(Synced, false, false), RemoveFromPreviousAlbTask, Then(DeletePreviousTask(GovCloud), end), g, all);
    PointDnsIsSafe(false, CleanUpAlb(GovCloud), g, all);
  }

  lemma ToAlbIsSafe(rest: Pipeline, g: Plan, all: bool)
    requires g.place.AtListener? && !g.toCdn && !g.reuse && Safe(Phase(Promoted, false, false), rest, g, all)
    ensures Safe(START, ToAlb(rest), g, all)
  {
    Moves(Phase(Selected, false, false), AddCertificateToAlbTask, rest, g, all);
    Moves(START, SelectAlbTask, Then(AddCertificateToAlbTask, rest), g, all);
  }

  lemma ToDedicatedAlbIsSafe(rest: Pipeline, g: Plan, all: bool)
    requires g.place.AtListener? && !g.toCdn && Safe(Phase(Promoted, false, false), rest, g, all)
    ensures Safe(START, ToDedicatedAlb(rest), g, all)
  {
    Moves(Phase(Selected, false, false), AddCertificateToAlbTask, rest, g, all);
    Moves(START, SelectDedicatedAlbTask, Then(AddCertificateToAlbTask, rest), g, all);
  }

  lemma RedistributeIsSafe(rest: Pipeline, g: Plan, all: bool)
    requires g.place.AtDistribution? && g.toCdn && Safe(Phase(Synced, true, true), rest, g, all)
    ensures Safe(START, Redistribute(rest), g, all)
  {
    DeleteIsSafe(Commercial, rest, g, all);
    var q := Then(DeletePreviousTask(Commercial), rest);
    PointDnsIsSafe(true, q, g, all);
    Stays(Phase(Promoted, true, false), WaitForDistributionTask, PointDns(q), g, all);
    Moves(START, UpdateDistributionTask, Then(WaitForDistributionTask, PointDns(q)), g, all);
  }

  lemma MoveToDedicatedIsSafe(g: Plan, all: bool)
    requires g.place.AtListener? && !g.toCdn && g.reuse
    ensures Safe(START, AlbToDedicatedTasks(Then(ProvisionTask, Finished)), g, all)
  {
    EndIsSafe(ProvisionTask, g, all);
    var end := Then(ProvisionTask, Finished);
    var p := Then(RemoveFromPreviousDuringUpdateToDedicatedTask, end);
    Moves(Phase(Synced, false, false), RemoveFromPreviousDuringUpdateToDedicatedTask, end, g, all);
    PointDnsIsSafe(false, p, g, all);
    AlbWafIsSafe(Phase(Promoted, false, false), PointDns(p), g, all);
    ToDedicatedAlbIsSafe(AlbWaf(PointDns(p)), g, all);
  }

  lemma RetireAlbIsSafe(g: Plan, all: bool)
    requires g.place.AtListener? && g.toCdn
    ensures Safe(Phase(Synced, false, false), RetireAlb(GovCloud), g, all)
  {
    EndIsSafe(UpdateCompleteTask, g, all);
    var end := Then(UpdateCompleteTask, Finished);
    Stays(Phase(Synced, true, true), ChangeToCdnDedicatedWafTask, end, g, all);
    var p := Then(ChangeToCdnDedicatedWafTask, end);
    DeleteIsSafe(GovCloud, p, g, all);
    Moves(Phase(Synced, false, false), RemoveAlbCertificateDuringUpdateToCdnTask,
      Then(DeletePreviousTask(GovCloud), p), g, all);
  }

  lemma ToNewDistributionIsSafe(rest: Pipeline, g: Plan, all: bool)
    requires g.place.AtListener? && g.toCdn && !g.reuse && Safe(Phase(Synced, false, false), rest, g, all)
    ensures Safe(START, ToNewDistribution(rest), g, all)
  {
    PointDnsIsSafe(false, rest, g, all);
    Stays(Phase(Promoted, false, false), WaitForDistributionTask, PointDns(rest), g, all);
    var p := Then(CreateDistributionTask, Then(WaitForDistributionTask, PointDns(rest)));
    Moves(START, CreateDistributionTask, Then(WaitForDistributionTask, PointDns(rest)), g, all);
    Stays(START, PutWafLoggingTask, p, g, all);
    Stays(START, CreateWebAclTask, Then(PutWafLoggingTask, p), g, all);
  }

  lemma MoveToCdnIsSafe(g: Plan, all: bool)
    requires g.place.AtListener? && g.toCdn && !g.reuse
    ensures Safe(START, DedicatedToCdnWafTasks(Commercial), g, all)
  {
    RetireAlbIsSafe(g, all);
    MonitorIsSafe(Phase(Synced, false, false), RetireAlb(GovCloud), g, all);
    ToNewDistributionIsSafe(Monitor(RetireAlb(GovCloud)), g, all);
    var p := ToNewDistribution(Monitor(RetireAlb(GovCloud)));
    ReissueIsSafe(Commercial, p, g, all);
    Stays(START, StoreAlbCertificateTask, Reissue(Commercial, p), g, all);
  }

  lemma CdnRenewalIsSafe(g: Plan)
    requires g.place.AtDistribution? && g.toCdn
    ensures Safe(START, CdnRenewalTasks(Commercial), g, true)
  {
    EndIsSafe(ProvisionTask, g, true);
    var p := Then(DeletePreviousTask(Commercial), Then(ProvisionTask, Finished));
    DeleteIsSafe(Commercial, Then(ProvisionTask, Finished), g, true);
    Moves(START, UpdateCertificateTask, p, g, true);
    IssueIsSafe(Commercial, Then(UpdateCertificateTask, p), g, true);
  }

  lemma CdnUpdatesAreSafe(g: Plan, all: bool)
    requires g.place.AtDistribution? && g.toCdn
    ensures Safe(START, CdnUpdateTasks(Commercial), g, all)
    ensures Safe(START, CdnWafUpdateTasks(Commercial), g, all)
    ensures Safe(START, CdnToCdnWafTasks(Commercial), g, all)
  {
    EndIsSafe(UpdateCompleteTask, g, all);
    var end := Then(UpdateCompleteTask, Finished);
    RedistributeIsSafe(end, g, all);
    ReissueIsSafe(Commercial, Redistribute(end), g, all);
    UpdateMonitoringIsSafe(Phase(Synced, true, true), end, g, all);
    RedistributeIsSafe(UpdateMonitoring(end), g, all);
    var p := Redistribute(UpdateMonitoring(end));
    Stays(START, PutWafLoggingTask, p, g, all);
    Stays(START, CreateWebAclTask, Then(PutWafLoggingTask, p), g, all);
    ReissueIsSafe(Commercial, Then(CreateWebAclTask, Then(PutWafLoggingTask, p)), g, all);
    MonitorIsSafe(Phase(Synced, true, true), end, g, all);
    RedistributeIsSafe(Monitor(end), g, all);
    var q := Redistribute(Monitor(end));
    Stays(START, CreateWebAclTask, q, g, all);
    IssueIsSafe(Commercial, Then(CreateWebAclTask, q), g, all);
  }

  lemma AlbPipelinesAreSafe(g: Plan, all: bool)
    requires g.place.AtListener? && !g.toCdn && !g.reuse
    ensures Safe(START, AlbUpdateTasks(GovCloud), g, all)
    ensures Safe(START, AlbRenewalTasks(GovCloud), g, all)
    ensures Safe(START, DedicatedUpdateTasks(GovCloud), g, all)
    ensures Safe(START, DedicatedRenewalTasks(GovCloud), g, all)
  {
    var p := PointDns(CleanUpAlb(GovCloud));
    CleanUpIsSafe(g, all);
    ToAlbIsSafe(p, g, all);
    ReissueIsSafe(GovCloud, ToAlb(p), g, all);
    IssueIsSafe(GovCloud, ToAlb(p), g, all);
    ToDedicatedAlbIsSafe(p, g, all);
    IssueIsSafe(GovCloud, ToDedicatedAlb(p), g, all);
    AlbWafIsSafe(Phase(Promoted, false, false), p, g, all);
    ToDedicatedAlbIsSafe(AlbWaf(p), g, all);
    ReissueIsSafe(GovCloud, ToDedicatedAlb(AlbWaf(p)), g, all);
  }

  predicate FromListener(kind: Kind) {
    || kind.AlbUpdate? || kind.AlbRenewal? || kind.DedicatedUpdate? || kind.DedicatedRenewal?
    || kind.AlbToDedicated? || kind.DedicatedToCdnWaf?
  }

  predicate FromDistribution(kind: Kind) {
    kind.CdnUpdate? || kind.CdnRenewal? || kind.CdnWafUpdate? || kind.CdnToCdnWaf?
  }

  predicate Renewal(kind: Kind) {
    kind.AlbRenewal? || kind.DedicatedRenewal? || kind.CdnRenewal?
  }

  predicate Fits(kind: Kind, g: Plan) {
    && (if g.place.AtListener? then FromListener(kind) else FromDistribution(kind))
    && g.toCdn == (kind.DedicatedToCdnWaf? || FromDistribution(kind))
    && (g.place.AtListener? ==> g.reuse == kind.AlbToDedicated?)
  }

  /** The chain that goes on with a move to a dedicated load balancer. */
  lemma DedicatedUpdateIsSafe(g: Plan, all: bool)
    requires g.place.AtListener? && !g.toCdn
    ensures Safe(START, DedicatedUpdateTasks(GovCloud), g, all)
  {
    CleanUpIsSafe(g, all);
    var p := AlbWaf(PointDns(CleanUpAlb(GovCloud)));
    AlbWafIsSafe(Phase(Promoted, false, false), PointDns(CleanUpAlb(GovCloud)), g, all);
    ToDedicatedAlbIsSafe(p, g, all);
    ReissueIsSafe(GovCloud, ToDedicatedAlb(p), g, all);
  }

  /** What the scan starts instead follows the phase order too. */
  lemma RestartIsSafe(kind: Kind, g: Plan)
    requires Fits(kind, g)
    ensures Safe(START, TasksOf(RestartKind(kind)), g, Renewal(kind))
  {
    hide Safe, DedicatedUpdateTasks;
    if kind.AlbToDedicated? {
      DedicatedUpdateIsSafe(g, false);
      assert TasksOf(DedicatedUpdate) == DedicatedUpdateTasks(GovCloud);
    } else {
      hide TasksOf;
      PipelineIsSafe(RestartKind(kind), g);
    }
  }

  lemma CdnKindIsSafe(kind: Kind, g: Plan)
    requires Fits(kind, g) && g.place.AtDistribution?
    ensures Safe(START, TasksOf(kind), g, Renewal(kind))
  {
    match kind {
      case CdnRenewal => CdnRenewalIsSafe(g);
      case CdnUpdate => CdnUpdatesAreSafe(g, false); assert TasksOf(kind) == CdnUpdateTasks(Commercial);
      case CdnWafUpdate => CdnUpdatesAreSafe(g, false); assert TasksOf(kind) == CdnWafUpdateTasks(Commercial);
      case CdnToCdnWaf => CdnUpdatesAreSafe(g, false); assert TasksOf(kind) == CdnToCdnWafTasks(Commercial);
    }
  }

  lemma AlbKindIsSafe(kind: Kind, g: Plan)
    requires Fits(kind, g) && g.place.AtListener? && !kind.AlbToDedicated? && !kind.DedicatedToCdnWaf?
    ensures Safe(START, TasksOf(kind), g, Renewal(kind))
  {
    AlbPipelinesAreSafe(g, Renewal(kind));
    match kind {
      case AlbUpdate => assert TasksOf(kind) == AlbUpdateTasks(GovCloud);
      case AlbRenewal => assert TasksOf(kind) == AlbRenewalTasks(GovCloud);
      case DedicatedUpdate => assert TasksOf(kind) == DedicatedUpdateTasks(GovCloud);
      case DedicatedRenewal => assert TasksOf(kind) == DedicatedRenewalTasks(GovCloud);
    }
  }

  /** Every rotating pipeline follows the phase order. */
  lemma PipelineIsSafe(kind: Kind, g: Plan)
    requires Fits(kind, g)
    ensures Safe(START, TasksOf(kind), g, Renewal(kind))
  {
    if g.place.AtDistribution? {
      CdnKindIsSafe(kind, g);
    } else if kind.AlbToDedicated? {
      MoveToDedicatedIsSafe(g, false);
      assert TasksOf(kind) == AlbToDedicatedTasks(Then(ProvisionTask, Finished));
    } else if kind.DedicatedToCdnWaf? {
      MoveToCdnIsSafe(g, false);
      assert TasksOf(kind) == DedicatedToCdnWafTasks(Commercial);
    } else {
      AlbKindIsSafe(kind, g);
    }
  }
}
