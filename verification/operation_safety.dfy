/**
  What holds of operations in every reachable state: at most one operation other
  than a deprovision is active on an instance, nothing settled or canceled comes
  back, a deprovision that has canceled the others runs alone, and a deactivated
  instance stays quiet.
 */
module OperationSafety {
  import opened Operations
  import P = Pipelines
  import R = Records

  // ---- the invariant ----

  predicate Changes(op: Operation) {
    Active(op) && !op.action.Deprovision?
  }

  predicate QuietAt(operations: seq<Operation>, id: string) {
    forall i :: 0 <= i < |operations| && operations[i].instance == id ==> !Changes(operations[i])
  }

  /** The shape of what is left of a pipeline: the last task, and only it, settles
      the operation; only a deprovision cancels others, first of all. */
  predicate Shaped(todo: seq<Step>, action: Action) {
    && (forall k :: 0 <= k < |todo| ==>
          if action.Deprovision? then
            && (todo[k].duty.CancelOthers? ==> k == 0)
            && (todo[k].duty.Deactivate? <==> k == |todo| - 1)
            && (todo[k].duty.Work? || todo[k].duty.CancelOthers? || todo[k].duty.Deactivate?)
          else
            && todo[k].positional
            && (todo[k].duty.Complete? <==> k == |todo| - 1)
            && !todo[k].duty.CancelOthers? && !todo[k].duty.Deactivate?)
  }

  predicate SoundOperation(op: Operation) {
    && Shaped(op.todo, op.action)
    && (op.todo != [] ==> op.state.InProgress?)
    && (op.canceled ==> op.state.InProgress? && !op.action.Deprovision?)
  }

  /** The deprovision has canceled the instance's other operations. */
  predicate Passed(op: Operation) {
    op.action.Deprovision? && op.todo != [] && !op.todo[0].duty.CancelOthers?
  }

  ghost predicate OneActive(s: State) {
    forall i, j :: 0 <= i < j < |s.operations| && Changes(s.operations[i]) && Changes(s.operations[j]) ==>
      s.operations[i].instance != s.operations[j].instance
  }

  ghost predicate Sound(s: State) {
    && (forall i :: 0 <= i < |s.operations| ==>
          SoundOperation(s.operations[i]) && s.operations[i].instance in s.instances)
    && OneActive(s)
    && (forall i :: 0 <= i < |s.operations| && Passed(s.operations[i]) ==>
          QuietAt(s.operations, s.operations[i].instance))
    && (forall id :: id in s.instances && s.instances[id].deactivated ==> QuietAt(s.operations, id))
  }

  // ---- the queues have the shape ----

  predicate EndsComplete(p: P.Pipeline)
    decreases p
  {
    p.Then? && (if p.rest.Finished? then StepOf(p.task).duty.Complete?
                else !StepOf(p.task).duty.Complete? && EndsComplete(p.rest))
  }

  lemma {:induction false} QueueIsShaped(p: P.Pipeline, action: Action)
    requires EndsComplete(p) && !action.Deprovision?
    ensures Queue(p) != [] && Shaped(Queue(p), action)
    decreases p
  {
    if p.rest.Then? {
      QueueIsShaped(p.rest, action);
      var rest := Queue(p.rest);
      forall k | 0 <= k < |Queue(p)|
        ensures Queue(p)[k].positional && (Queue(p)[k].duty.Complete? <==> k == |Queue(p)| - 1)
        ensures !Queue(p)[k].duty.CancelOthers? && !Queue(p)[k].duty.Deactivate?
      {
        if k > 0 { assert Queue(p)[k] == rest[k - 1]; }
      }
    }
  }

  lemma Longer(t: P.Task, rest: P.Pipeline)
    requires EndsComplete(rest) && !StepOf(t).duty.Complete?
    ensures EndsComplete(P.Then(t, rest))
  {
  }

  lemma IssueEnds(p: R.Partition, rest: P.Pipeline)
    requires EndsComplete(rest)
    ensures EndsComplete(P.Issue(p, rest)) && EndsComplete(P.Then(P.CreateUserTask, P.Issue(p, rest)))
  {
    hide EndsComplete;
    var p5 := P.Then(P.RetrieveCertificateTask, P.Then(P.UploadTask(p), rest));
    Longer(P.UploadTask(p), rest);
    Longer(P.RetrieveCertificateTask, P.Then(P.UploadTask(p), rest));
    var p3 := P.Then(P.WaitForChangesTask, P.Then(P.AnswerChallengesTask, p5));
    Longer(P.AnswerChallengesTask, p5);
    Longer(P.WaitForChangesTask, P.Then(P.AnswerChallengesTask, p5));
    Longer(P.CreateTxtTask, p3);
    var p1 := P.Then(P.InitiateChallengesTask, P.Then(P.CreateTxtTask, p3));
    Longer(P.InitiateChallengesTask, P.Then(P.CreateTxtTask, p3));
    Longer(P.GenerateKeyTask, p1);
    Longer(P.CreateUserTask, P.Issue(p, rest));
  }

  lemma ReissueEnds(p: R.Partition, rest: P.Pipeline)
    requires EndsComplete(rest)
    ensures EndsComplete(P.Reissue(p, rest)) && EndsComplete(P.Then(P.StoreAlbCertificateTask, P.Reissue(p, rest)))
  {
    hide EndsComplete;
    var p6 := P.Then(P.RetrieveCertificateTask, P.Then(P.UploadTask(p), rest));
    Longer(P.UploadTask(p), rest);
    Longer(P.RetrieveCertificateTask, P.Then(P.UploadTask(p), rest));
    var p4 := P.Then(P.RemoveOldDnsTask, P.Then(P.AnswerChallengesTask, p6));
    Longer(P.AnswerChallengesTask, p6);
    Longer(P.RemoveOldDnsTask, P.Then(P.AnswerChallengesTask, p6));
    Longer(P.WaitForChangesTask, p4);
    var p2 := P.Then(P.CreateTxtTask, P.Then(P.WaitForChangesTask, p4));
    Longer(P.CreateTxtTask, P.Then(P.WaitForChangesTask, p4));
    Longer(P.InitiateChallengesTask, p2);
    Longer(P.GenerateKeyTask, P.Then(P.InitiateChallengesTask, p2));
    Longer(P.StoreAlbCertificateTask, P.Reissue(p, rest));
  }

  lemma PointDnsEnds(rest: P.Pipeline)
    requires EndsComplete(rest)
    ensures EndsComplete(P.PointDns(rest)) && EndsComplete(P.AlbWaf(P.PointDns(rest)))
    ensures EndsComplete(P.Then(P.WaitForDistributionTask, P.PointDns(rest)))
  {
    hide EndsComplete;
    Longer(P.WaitForChangesTask, rest);
    Longer(P.CreateAliasTask, P.Then(P.WaitForChangesTask, rest));
    WafEnds(P.PointDns(rest));
    Longer(P.WaitForDistributionTask, P.PointDns(rest));
  }

  lemma WafEnds(rest: P.Pipeline)
    requires EndsComplete(rest)
    ensures EndsComplete(P.AlbWaf(rest)) && EndsComplete(P.Then(P.CreateWebAclTask, rest))
    ensures EndsComplete(P.Then(P.CreateWebAclTask, P.Then(P.PutWafLoggingTask, rest)))
  {
    hide EndsComplete;
    Longer(P.AssociateWebAclTask, rest);
    Longer(P.PutWafLoggingTask, P.Then(P.AssociateWebAclTask, rest));
    Longer(P.CreateWebAclTask, P.Then(P.PutWafLoggingTask, P.Then(P.AssociateWebAclTask, rest)));
    Longer(P.PutWafLoggingTask, rest);
    Longer(P.CreateWebAclTask, P.Then(P.PutWafLoggingTask, rest));
    Longer(P.CreateWebAclTask, rest);
  }

  lemma PlacedEnds(rest: P.Pipeline)
    requires EndsComplete(rest)
    ensures EndsComplete(P.ToAlb(rest)) && EndsComplete(P.ToDedicatedAlb(rest))
  {
    hide EndsComplete;
    Longer(P.AddCertificateToAlbTask, rest);
    Longer(P.SelectAlbTask, P.Then(P.AddCertificateToAlbTask, rest));
    Longer(P.SelectDedicatedAlbTask, P.Then(P.AddCertificateToAlbTask, rest));
  }

  lemma NewDistributionEnds(rest: P.Pipeline)
    requires EndsComplete(rest)
    ensures EndsComplete(P.Then(P.CreateDistributionTask, P.Then(P.WaitForDistributionTask, P.PointDns(rest))))
    ensures EndsComplete(P.ToNewDistribution(rest))
  {
    hide EndsComplete;
    PointDnsEnds(rest);
    Longer(P.CreateDistributionTask, P.Then(P.WaitForDistributionTask, P.PointDns(rest)));
    WafEnds(P.Then(P.CreateDistributionTask, P.Then(P.WaitForDistributionTask, P.PointDns(rest))));
  }

  lemma RedistributeEnds(rest: P.Pipeline)
    requires EndsComplete(rest)
    ensures EndsComplete(P.Redistribute(rest))
  {
    hide EndsComplete;
    Longer(P.DeletePreviousTask(R.Commercial), rest);
    PointDnsEnds(P.Then(P.DeletePreviousTask(R.Commercial), rest));
    Longer(P.UpdateDistributionTask, P.Redistribute(rest).rest);
  }

  lemma MonitorEnds(rest: P.Pipeline)
    requires EndsComplete(rest)
    ensures EndsComplete(P.Monitor(rest)) && EndsComplete(P.UpdateMonitoring(rest))
  {
    hide EndsComplete;
    var p := P.Then(P.CreateHealthCheckAlarmsTask, P.Then(P.CreateDdosAlarmTask, rest));
    Longer(P.CreateDdosAlarmTask, rest);
    Longer(P.CreateHealthCheckAlarmsTask, P.Then(P.CreateDdosAlarmTask, rest));
    var q := P.Then(P.CreateNewHealthChecksTask, P.Then(P.AssociateHealthCheckTask, p));
    Longer(P.AssociateHealthCheckTask, p);
    Longer(P.CreateNewHealthChecksTask, P.Then(P.AssociateHealthCheckTask, p));
    Longer(P.SubscribeTopicTask, q);
    Longer(P.CreateTopicTask, P.Then(P.SubscribeTopicTask, q));
    CheckUpdatesEnd(p);
    var u := P.CheckUpdates(rest);
    Longer(P.SubscribeTopicTask, u);
    Longer(P.UnsubscribeTopicTask, P.Then(P.SubscribeTopicTask, u));
    Longer(P.CreateTopicTask, P.Then(P.UnsubscribeTopicTask, P.Then(P.SubscribeTopicTask, u)));
  }

  lemma CheckUpdatesEnd(p: P.Pipeline)
    requires EndsComplete(p)
    ensures var q := P.Then(P.DeleteUnusedHealthChecksTask, P.Then(P.DeleteHealthCheckAlarmsTask, p));
            EndsComplete(P.Then(P.CreateNewHealthChecksTask, P.Then(P.UpdateAssociatedHealthCheckTask, q)))
  {
    hide EndsComplete;
    Longer(P.DeleteHealthCheckAlarmsTask, p);
    var q := P.Then(P.DeleteUnusedHealthChecksTask, P.Then(P.DeleteHealthCheckAlarmsTask, p));
    Longer(P.DeleteUnusedHealthChecksTask, P.Then(P.DeleteHealthCheckAlarmsTask, p));
    Longer(P.UpdateAssociatedHealthCheckTask, q);
    Longer(P.CreateNewHealthChecksTask, P.Then(P.UpdateAssociatedHealthCheckTask, q));
  }

  lemma CleanUpEnds()
    ensures EndsComplete(P.CleanUpAlb(R.GovCloud)) && EndsComplete(P.RetireAlb(R.GovCloud))
    ensures EndsComplete(P.Then(P.RemoveFromPreviousDuringUpdateToDedicatedTask, P.Then(P.ProvisionTask, P.Finished)))
    ensures EndsComplete(P.Then(P.DeletePreviousTask(R.Commercial), P.Then(P.ProvisionTask, P.Finished)))
  {
    var end := P.Then(P.ProvisionTask, P.Finished);
    Longer(P.DeletePreviousTask(R.GovCloud), end);
    Longer(P.RemoveFromPreviousAlbTask, P.Then(P.DeletePreviousTask(R.GovCloud), end));
    var p := P.Then(P.ChangeToCdnDedicatedWafTask, P.Then(P.UpdateCompleteTask, P.Finished));
    Longer(P.ChangeToCdnDedicatedWafTask, P.Then(P.UpdateCompleteTask, P.Finished));
    Longer(P.DeletePreviousTask(R.GovCloud), p);
    Longer(P.RemoveAlbCertificateDuringUpdateToCdnTask, P.Then(P.DeletePreviousTask(R.GovCloud), p));
  }

  lemma WafProvisionEnds(kind: P.Kind)
    requires kind.CdnWafProvision?
    ensures EndsComplete(P.TasksOf(kind))
  {
    var end := P.Then(P.ProvisionTask, P.Finished);
    assert EndsComplete(end);
    hide EndsComplete;
    MonitorEnds(end);
    NewDistributionEnds(P.Monitor(end));
    IssueEnds(R.Commercial, P.ToNewDistribution(P.Monitor(end)));
  }

  lemma AlbProvisionEnds(kind: P.Kind)
    requires kind.AlbProvision? || kind.DedicatedProvision?
    ensures EndsComplete(P.TasksOf(kind))
  {
    var end := P.Then(P.ProvisionTask, P.Finished);
    assert EndsComplete(end);
    hide EndsComplete;
    PointDnsEnds(end);
    if kind.AlbProvision? {
      PlacedEnds(P.PointDns(end));
      IssueEnds(R.GovCloud, P.ToAlb(P.PointDns(end)));
    } else {
      PlacedEnds(P.AlbWaf(P.PointDns(end)));
      IssueEnds(R.GovCloud, P.ToDedicatedAlb(P.AlbWaf(P.PointDns(end))));
    }
  }

  lemma CdnProvisionEnds(kind: P.Kind)
    requires kind.CdnProvision?
    ensures EndsComplete(P.TasksOf(kind))
  {
    var end := P.Then(P.ProvisionTask, P.Finished);
    assert EndsComplete(end);
    hide EndsComplete;
    NewDistributionEnds(end);
    IssueEnds(R.Commercial, P.Then(P.CreateDistributionTask, P.Then(P.WaitForDistributionTask, P.PointDns(end))));
  }

  lemma ProvisionEnds(kind: P.Kind)
    requires P.Provisions(kind)
    ensures EndsComplete(P.TasksOf(kind))
  {
    hide EndsComplete;
    match kind {
      case AlbProvision => AlbProvisionEnds(kind);
      case DedicatedProvision => AlbProvisionEnds(kind);
      case CdnProvision => CdnProvisionEnds(kind);
      case CdnWafProvision => WafProvisionEnds(kind);
    }
  }

  predicate AlbKind(kind: P.Kind) {
    kind.AlbUpdate? || kind.AlbRenewal? || kind.DedicatedUpdate? || kind.DedicatedRenewal?
  }

  lemma AlbEnds(kind: P.Kind)
    requires AlbKind(kind)
    ensures EndsComplete(P.TasksOf(kind))
  {
    hide EndsComplete;
    CleanUpEnds();
    PointDnsEnds(P.CleanUpAlb(R.GovCloud));
    var p := P.PointDns(P.CleanUpAlb(R.GovCloud));
    PlacedEnds(p);
    PlacedEnds(P.AlbWaf(p));
    match kind {
      case AlbUpdate => ReissueEnds(R.GovCloud, P.ToAlb(p));
      case AlbRenewal => IssueEnds(R.GovCloud, P.ToAlb(p));
      case DedicatedUpdate => ReissueEnds(R.GovCloud, P.ToDedicatedAlb(P.AlbWaf(p)));
      case DedicatedRenewal => IssueEnds(R.GovCloud, P.ToDedicatedAlb(p));
    }
  }

  lemma OtherEnds(kind: P.Kind)
    requires !P.Provisions(kind) && !AlbKind(kind)
    ensures EndsComplete(P.TasksOf(kind))
  {
    var end := P.Then(P.UpdateCompleteTask, P.Finished);
    assert EndsComplete(end);
    hide EndsComplete;
    CleanUpEnds();
    match kind {
      case CdnUpdate =>
        RedistributeEnds(end);
        ReissueEnds(R.Commercial, P.Redistribute(end));
      case CdnRenewal =>
        var p := P.Then(P.DeletePreviousTask(R.Commercial), P.Then(P.ProvisionTask, P.Finished));
        Longer(P.UpdateCertificateTask, p);
        IssueEnds(R.Commercial, P.Then(P.UpdateCertificateTask, p));
      case CdnWafUpdate =>
        MonitorEnds(end);
        RedistributeEnds(P.UpdateMonitoring(end));
        WafEnds(P.Redistribute(P.UpdateMonitoring(end)));
        ReissueEnds(R.Commercial,
          P.Then(P.CreateWebAclTask, P.Then(P.PutWafLoggingTask, P.Redistribute(P.UpdateMonitoring(end)))));
      case CdnToCdnWaf =>
        MonitorEnds(end);
        RedistributeEnds(P.Monitor(end));
        WafEnds(P.Redistribute(P.Monitor(end)));
        IssueEnds(R.Commercial, P.Then(P.CreateWebAclTask, P.Redistribute(P.Monitor(end))));
      case AlbToDedicated =>
        var p := P.Then(P.RemoveFromPreviousDuringUpdateToDedicatedTask, P.Then(P.ProvisionTask, P.Finished));
        PointDnsEnds(p);
        PlacedEnds(P.AlbWaf(P.PointDns(p)));
      case DedicatedToCdnWaf =>
        MonitorEnds(P.RetireAlb(R.GovCloud));
        NewDistributionEnds(P.Monitor(P.RetireAlb(R.GovCloud)));
        ReissueEnds(R.Commercial, P.ToNewDistribution(P.Monitor(P.RetireAlb(R.GovCloud))));
    }
  }

  lemma KindIsShaped(kind: P.Kind, action: Action)
    requires !action.Deprovision?
    ensures Queue(P.TasksOf(kind)) != [] && Shaped(Queue(P.TasksOf(kind)), action)
  {
    hide EndsComplete;
    if P.Provisions(kind) {
      ProvisionEnds(kind);
    } else if AlbKind(kind) {
      AlbEnds(kind);
    } else {
      OtherEnds(kind);
    }
    QueueIsShaped(P.TasksOf(kind), action);
  }

  lemma QueueForIsShaped(plan: Plan, action: Action)
    ensures QueueFor(plan, action) != [] && Shaped(QueueFor(plan, action), action)
    ensures action.Deprovision? ==> QueueFor(plan, action)[0].duty.CancelOthers?
  {
    match action {
      case Provision => KindIsShaped(ProvisionKind(plan), action);
      case Renew => KindIsShaped(RenewKind(plan), action);
      case Update => KindIsShaped(UpdateKind(plan), action);
      case Deprovision =>
    }
  }

  // ---- every event keeps it ----

  lemma NewIsSound(s: State, s': State, op: Operation)
    requires Sound(s)
    requires s'.operations == s.operations + [op] && s.instances.Keys <= s'.instances.Keys
    requires op.instance in s'.instances && SoundOperation(op) && !Passed(op)
    requires forall id :: id in s'.instances && s'.instances[id].deactivated ==>
                            id in s.instances && s.instances[id].deactivated
    requires Changes(op) ==> QuietAt(s.operations, op.instance)
    requires Changes(op) ==>
               forall i :: 0 <= i < |s.operations| && s.operations[i].instance == op.instance ==>
                             !Passed(s.operations[i])
    requires Changes(op) ==> !s'.instances[op.instance].deactivated
    ensures Sound(s')
  {
  }

  lemma ProvisionIsSound(s: State, id: string, plan: Plan, domains: seq<string>)
    requires Sound(s)
    ensures Sound(ProvisionRequest(s, id, plan, domains))
  {
    if id !in s.instances {
      KindIsShaped(ProvisionKind(plan), Provision);
      NewIsSound(s, ProvisionRequest(s, id, plan, domains), New(id, Provision, Queue(P.TasksOf(ProvisionKind(plan)))));
    }
  }

  /** With no active operation, none is passed either: a passed one is active. */
  lemma NoneActive(s: State, id: string)
    requires Sound(s) && !HasActive(s, id)
    ensures QuietAt(s.operations, id)
    ensures !(exists i :: 0 <= i < |s.operations| && s.operations[i].instance == id && Passed(s.operations[i]))
  {
    forall i | 0 <= i < |s.operations| && s.operations[i].instance == id
      ensures !Active(s.operations[i]) && !Passed(s.operations[i])
    {
      assert SoundOperation(s.operations[i]);
    }
  }

  lemma UpdateIsSound(s: State, id: string, plan: Plan, requested: seq<string>, valid: bool, accepted: bool)
    requires Sound(s)
    ensures Sound(UpdateRequest(s, id, plan, requested, valid, accepted))
  {
    var s' := UpdateRequest(s, id, plan, requested, valid, accepted);
    if s'.operations != s.operations {
      var from := s.instances[id].plan;
      var kind := if CanMove(from, plan) then MoveKind(from, plan) else UpdateKind(from);
      KindIsShaped(kind, Update);
      NoneActive(s, id);
      var todo := if s.instances[id].migrating then [] else Queue(P.TasksOf(kind));
      NewIsSound(s, s', New(id, Update, todo));
    }
  }

  lemma DeprovisionIsSound(s: State, id: string, plan: Plan)
    requires Sound(s)
    ensures Sound(DeprovisionRequest(s, id, plan))
  {
    if id in s.instances {
      QueueForIsShaped(plan, Deprovision);
      NewIsSound(s, DeprovisionRequest(s, id, plan), New(id, Deprovision, DeprovisionQueue(plan)));
    }
  }

  lemma RenewOneIsSound(s: State, id: string)
    requires Sound(s)
    ensures Sound(RenewOne(s, id))
  {
    var s' := RenewOne(s, id);
    if s' != s {
      var kind := RenewKind(s.instances[id].plan);
      KindIsShaped(kind, Renew);
      NoneActive(s, id);
      NewIsSound(s, s', New(id, Renew, Queue(P.TasksOf(kind))));
    }
  }

  lemma {:induction false} RenewalIsSound(s: State, expiring: seq<string>)
    requires Sound(s)
    ensures Sound(RenewalScan(s, expiring))
    decreases |expiring|
  {
    hide Sound, RenewOne;
    if expiring != [] {
      RenewOneIsSound(s, expiring[0]);
      RenewalIsSound(RenewOne(s, expiring[0]), expiring[1..]);
    }
  }

  /** One operation changes, and not into an active one. */
  lemma ChangeIsSound(s: State, i: nat, op: Operation)
    requires Sound(s) && i < |s.operations|
    requires op.instance == s.operations[i].instance && op.action == s.operations[i].action
    requires SoundOperation(op)
    requires Changes(op) ==> Changes(s.operations[i])
    requires Passed(op) ==> Passed(s.operations[i]) || QuietAt(s.operations, op.instance)
    ensures Sound(s.(operations := s.operations[i := op]))
  {
  }

  lemma RestartIsSound(s: State, i: nat)
    requires Sound(s)
    ensures Sound(Restart(s, i))
  {
    if Restart(s, i) != s {
      var op := s.operations[i];
      QueueForIsShaped(s.instances[op.instance].plan, op.action);
      ChangeIsSound(s, i, op.(todo := QueueFor(s.instances[op.instance].plan, op.action)));
    }
  }

  lemma {:induction false} StalledIsSound(s: State, stalled: seq<nat>)
    requires Sound(s)
    ensures Sound(StalledScan(s, stalled))
    decreases |stalled|
  {
    hide Sound, Restart;
    if stalled != [] && !Blocks(s, stalled[0]) {
      RestartIsSound(s, stalled[0]);
      StalledIsSound(Restart(s, stalled[0]), stalled[1..]);
    }
  }

  lemma RestIsShaped(todo: seq<Step>, action: Action)
    requires todo != [] && Shaped(todo, action)
    ensures Shaped(todo[1..], action)
  {
  }

  /** Only whether an instance is there and deactivated matters. */
  lemma ColumnsDoNotMatter(s: State, s': State)
    requires Sound(s) && s'.operations == s.operations && s'.instances.Keys == s.instances.Keys
    requires forall id :: id in s.instances ==> s'.instances[id].deactivated == s.instances[id].deactivated
    ensures Sound(s')
  {
  }

  lemma EffectIsSound(s: State, id: string, duty: Duty)
    requires Sound(s) && !duty.Deactivate?
    ensures Sound(Effect(s, id, duty)) && Effect(s, id, duty).operations == s.operations
  {
    ColumnsDoNotMatter(s, Effect(s, id, duty));
  }

  predicate Ordinary(duty: Duty) {
    !duty.CancelOthers? && !duty.Complete? && !duty.Deactivate?
  }

  lemma OrdinaryIsSound(s: State, i: nat)
    requires Sound(s) && Starts(s, i) && Ordinary(s.operations[i].todo[0].duty)
    ensures Sound(Perform(s, i))
  {
    var op := s.operations[i];
    var duty := op.todo[0].duty;
    RestIsShaped(op.todo, op.action);
    EffectIsSound(s, op.instance, duty);
    ChangeIsSound(Effect(s, op.instance, duty), i,
                  op.(todo := if Abandons(s, op.instance, duty) then [] else op.todo[1..]));
  }

  lemma CompleteIsSound(s: State, i: nat)
    requires Sound(s) && Starts(s, i) && s.operations[i].todo[0].duty.Complete?
    ensures Sound(Perform(s, i))
  {
    var op := s.operations[i];
    assert op.todo[1..] == [];
    ChangeIsSound(s, i, op.(todo := [], state := Succeeded));
  }

  /** Canceling an instance's operations makes it quiet, and changes no other. */
  lemma CancelIsSound(s: State, id: string)
    requires Sound(s)
    ensures Sound(s.(operations := CancelPending(s.operations, id)))
    ensures QuietAt(CancelPending(s.operations, id), id)
  {
    var r := CancelPending(s.operations, id);
    forall i | 0 <= i < |r|
      ensures SoundOperation(r[i]) && (Changes(r[i]) ==> Changes(s.operations[i]))
    {
      assert r[i] == CancelOne(s.operations[i], id);
      assert SoundOperation(s.operations[i]);
    }
  }

  /** The order of the two does not matter: take the step, then cancel. */
  lemma CancelStepIsSound(s: State, i: nat)
    requires Sound(s) && Starts(s, i) && s.operations[i].todo[0].duty.CancelOthers?
    ensures Sound(Perform(s, i))
    ensures QuietAt(Perform(s, i).operations, s.operations[i].instance)
  {
    var op := s.operations[i];
    assert SoundOperation(op);
    CancelIsSound(s, op.instance);
    var c := CancelPending(s.operations, op.instance);
    assert op.action.Deprovision?;
    assert c[i] == op;
    RestIsShaped(op.todo, op.action);
    var op' := op.(todo := op.todo[1..]);
    ChangeIsSound(s.(operations := c), i, op');
    assert Perform(s, i).operations == c[i := op'];
    assert !Changes(op');
  }

  lemma DeactivateIsSound(s: State, i: nat)
    requires Sound(s) && Starts(s, i) && s.operations[i].todo[0].duty.Deactivate?
    ensures Sound(Perform(s, i))
  {
    var op := s.operations[i];
    assert SoundOperation(op) && Passed(op);
    assert op.todo[1..] == [];
    ChangeIsSound(s, i, op.(todo := [], state := Succeeded));
    assert QuietAt(s.operations, op.instance);
  }

  lemma PerformIsSound(s: State, i: nat)
    requires Sound(s) && Starts(s, i)
    ensures Sound(Perform(s, i))
  {
    hide Sound, Perform;
    match s.operations[i].todo[0].duty {
      case CancelOthers => CancelStepIsSound(s, i);
      case Complete => CompleteIsSound(s, i);
      case Deactivate => DeactivateIsSound(s, i);
      case _ => OrdinaryIsSound(s, i);
    }
  }

  lemma FailIsSound(s: State, i: nat, rejects: bool)
    requires Sound(s) && Starts(s, i)
    ensures Sound(Fail(s, i, rejects))
  {
    var op := s.operations[i];
    assert SoundOperation(op);
    var step := op.todo[0];
    var s1 := if rejects then Rejected(s, op.instance, step.duty) else s;
    ColumnsDoNotMatter(s, s1);
    if step.retries > 0 {
      var todo := op.todo[0 := step.(retries := step.retries - 1)];
      assert Shaped(todo, op.action);
      ChangeIsSound(s1, i, op.(todo := todo));
    } else {
      ChangeIsSound(s1, i, op.(todo := [], state := if step.positional then Failed else op.state));
    }
  }

  lemma AttemptIsSound(s: State, i: nat, outcome: Outcome)
    requires Sound(s)
    ensures Sound(Attempt(s, i, outcome))
  {
    if i < |s.operations| && s.operations[i].todo != [] {
      if !Starts(s, i) {
        ChangeIsSound(s, i, s.operations[i].(todo := []));
      } else if outcome.Succeeds? {
        PerformIsSound(s, i);
      } else {
        FailIsSound(s, i, outcome.Rejects?);
      }
    }
  }

  lemma NextIsSound(s: State, e: Event)
    requires Sound(s)
    ensures Sound(Next(s, e))
  {
    hide Sound;
    match e {
      case ProvisionEvent(id, plan, domains) => ProvisionIsSound(s, id, plan, domains);
      case UpdateEvent(id, plan, requested, valid, accepted) =>
        UpdateIsSound(s, id, plan, requested, valid, accepted);
      case DeprovisionEvent(id, plan) => DeprovisionIsSound(s, id, plan);
      case RenewalEvent(expiring) => RenewalIsSound(s, expiring);
      case StalledEvent(stalled) => StalledIsSound(s, stalled);
      case AttemptEvent(op, outcome) => AttemptIsSound(s, op, outcome);
    }
  }

  lemma {:induction false} AfterIsSound(s: State, events: seq<Event>)
    requires Sound(s)
    ensures Sound(After(s, events))
    decreases |events|
  {
    hide Sound, Next;
    if events != [] {
      NextIsSound(s, events[0]);
      AfterIsSound(Next(s, events[0]), events[1..]);
    }
  }
}
