/**
  Whole runs of the provisioning pipelines. Restarts before the certificate is
  put to use change nothing about where a run ends, and the end is the steady
  state that renewals start from.
 */
module ProvisioningRuns {
  import opened Records
  import opened Tasks
  import opened Pipelines
  import opened Provisioning
  import Rotation
  import RotationRuns

  // ---- the pipelines go up one level at a time ----

  lemma Up(level: nat, t: Task, rest: Pipeline, kind: Kind)
    requires NextLevel(level, t, kind).Some? && OnTrack(NextLevel(level, t, kind).value, rest, kind)
    ensures OnTrack(level, Then(t, rest), kind)
  {
  }

  lemma IssueIsOnTrack(rest: Pipeline, kind: Kind)
    requires OnTrack(8, rest, kind)
    ensures OnTrack(1, Issue(PartitionOf(kind), rest), kind)
  {
    var p6 := Then(UploadTask(PartitionOf(kind)), rest);
    Up(7, UploadTask(PartitionOf(kind)), rest, kind);
    var p5 := Then(RetrieveCertificateTask, p6);
    Up(6, RetrieveCertificateTask, p6, kind);
    var p4 := Then(AnswerChallengesTask, p5);
    Up(5, AnswerChallengesTask, p5, kind);
    var p3 := Then(WaitForChangesTask, p4);
    Up(4, WaitForChangesTask, p4, kind);
    var p2 := Then(CreateTxtTask, p3);
    Up(3, CreateTxtTask, p3, kind);
    var p1 := Then(InitiateChallengesTask, p2);
    Up(2, InitiateChallengesTask, p2, kind);
    Up(1, GenerateKeyTask, p1, kind);
  }

  lemma PointDnsIsOnTrack(end: Pipeline, kind: Kind)
    requires OnTrack(12, end, kind)
    ensures OnTrack(10, PointDns(end), kind)
  {
    Up(11, WaitForChangesTask, end, kind);
    Up(10, CreateAliasTask, Then(WaitForChangesTask, end), kind);
  }

  lemma AlbWafIsOnTrack(rest: Pipeline, kind: Kind)
    requires OnTrack(10, rest, kind)
    ensures OnTrack(10, AlbWaf(rest), kind)
  {
    Up(10, AssociateWebAclTask, rest, kind);
    Up(10, PutWafLoggingTask, Then(AssociateWebAclTask, rest), kind);
    Up(10, CreateWebAclTask, Then(PutWafLoggingTask, Then(AssociateWebAclTask, rest)), kind);
  }

  lemma AlbIsOnTrack(p: Pipeline)
    requires OnTrack(10, p, AlbProvision)
    ensures OnTrack(8, ToAlb(p), AlbProvision)
  {
    Up(9, AddCertificateToAlbTask, p, AlbProvision);
    Up(8, SelectAlbTask, Then(AddCertificateToAlbTask, p), AlbProvision);
  }

  lemma DedicatedAlbIsOnTrack(p: Pipeline)
    requires OnTrack(10, p, DedicatedProvision)
    ensures OnTrack(8, ToDedicatedAlb(AlbWaf(p)), DedicatedProvision)
  {
    AlbWafIsOnTrack(p, DedicatedProvision);
    Up(9, AddCertificateToAlbTask, AlbWaf(p), DedicatedProvision);
    Up(8, SelectDedicatedAlbTask, Then(AddCertificateToAlbTask, AlbWaf(p)), DedicatedProvision);
  }

  lemma DistributionIsOnTrack(p: Pipeline, kind: Kind)
    requires OnTrack(10, p, kind) && ToDistribution(kind)
    ensures OnTrack(8, Then(CreateDistributionTask, Then(WaitForDistributionTask, p)), kind)
  {
    Up(10, WaitForDistributionTask, p, kind);
    Up(8, CreateDistributionTask, Then(WaitForDistributionTask, p), kind);
  }

  lemma NewDistributionIsOnTrack(rest: Pipeline)
    requires OnTrack(10, PointDns(rest), CdnWafProvision)
    ensures OnTrack(8, ToNewDistribution(rest), CdnWafProvision)
  {
    DistributionIsOnTrack(PointDns(rest), CdnWafProvision);
    var p := Then(CreateDistributionTask, Then(WaitForDistributionTask, PointDns(rest)));
    Up(8, PutWafLoggingTask, p, CdnWafProvision);
    Up(8, CreateWebAclTask, Then(PutWafLoggingTask, p), CdnWafProvision);
  }

  /** A monitoring task, once DNS is in sync. */
  lemma Monitored(t: Task, rest: Pipeline, kind: Kind)
    requires MonitoringTask(t) && OnTrack(12, rest, kind)
    ensures OnTrack(12, Then(t, rest), kind)
  {
  }

  predicate MonitoringTask(t: Task) {
    || t.CreateTopicTask? || t.SubscribeTopicTask? || t.CreateNewHealthChecksTask?
    || t.AssociateHealthCheckTask? || t.CreateHealthCheckAlarmsTask? || t.CreateDdosAlarmTask?
  }

  lemma MonitorIsOnTrack(rest: Pipeline, kind: Kind)
    requires OnTrack(12, rest, kind)
    ensures OnTrack(12, Monitor(rest), kind)
  {
    hide OnTrack;
    Monitored(CreateDdosAlarmTask, rest, kind);
    Monitored(CreateHealthCheckAlarmsTask, Then(CreateDdosAlarmTask, rest), kind);
    var p := Then(CreateHealthCheckAlarmsTask, Then(CreateDdosAlarmTask, rest));
    Monitored(AssociateHealthCheckTask, p, kind);
    Monitored(CreateNewHealthChecksTask, Then(AssociateHealthCheckTask, p), kind);
    var q := Then(CreateNewHealthChecksTask, Then(AssociateHealthCheckTask, p));
    Monitored(SubscribeTopicTask, q, kind);
    Monitored(CreateTopicTask, Then(SubscribeTopicTask, q), kind);
  }

  lemma IssuedIsOnTrack(q: Pipeline, kind: Kind)
    requires OnTrack(8, q, kind)
    ensures OnTrack(0, Then(CreateUserTask, Issue(PartitionOf(kind), q)), kind)
  {
    IssueIsOnTrack(q, kind);
    Up(0, CreateUserTask, Issue(PartitionOf(kind), q), kind);
  }

  lemma EndIsOnTrack(kind: Kind)
    ensures OnTrack(12, Then(ProvisionTask, Finished), kind)
    ensures OnTrack(10, PointDns(Then(ProvisionTask, Finished)), kind)
  {
    Up(12, ProvisionTask, Finished, kind);
    PointDnsIsOnTrack(Then(ProvisionTask, Finished), kind);
  }

  lemma WafPipelineIsOnTrack()
    ensures OnTrack(0, TasksOf(CdnWafProvision), CdnWafProvision)
  {
    hide OnTrack;
    var p := Monitor(Then(ProvisionTask, Finished));
    EndIsOnTrack(CdnWafProvision);
    MonitorIsOnTrack(Then(ProvisionTask, Finished), CdnWafProvision);
    PointDnsIsOnTrack(p, CdnWafProvision);
    NewDistributionIsOnTrack(p);
    IssuedIsOnTrack(ToNewDistribution(p), CdnWafProvision);
  }

  lemma PipelineIsOnTrack(kind: Kind)
    requires Provisions(kind)
    ensures OnTrack(0, TasksOf(kind), kind)
  {
    hide OnTrack;
    var p := PointDns(Then(ProvisionTask, Finished));
    EndIsOnTrack(kind);
    match kind {
      case AlbProvision =>
        AlbIsOnTrack(p);
        IssuedIsOnTrack(ToAlb(p), kind);
      case DedicatedProvision =>
        DedicatedAlbIsOnTrack(p);
        IssuedIsOnTrack(ToDedicatedAlb(AlbWaf(p)), kind);
      case CdnProvision =>
        DistributionIsOnTrack(p, kind);
        IssuedIsOnTrack(Then(CreateDistributionTask, Then(WaitForDistributionTask, p)), kind);
      case CdnWafProvision => WafPipelineIsOnTrack();
    }
  }

  // ---- one event ----

  /** The invariant of a run at a level. */
  ghost predicate At(s0: State, s: State, kind: Kind, level: nat, n: nat) {
    if level <= 9 then Progress(s0, s, kind, level, n) else InUseNow(s0, s, kind, level)
  }

  lemma GettingAccountAt(s0: State, s: State, kind: Kind, level: nat, t: Task, n: nat, budget: nat)
    requires Progress(s0, s, kind, level, n) && level <= 3 && NextLevel(level, t, kind).Some?
    ensures var o := Execute(t, true, s, budget);
            Progress(s0, o.state, kind, if o.ok then NextLevel(level, t, kind).value else level, n)
  {
    hide Progress, CreateUser, GenerateKey, InitiateChallenges, CreateTxtRecords;
    match level {
      case 0 => UserProgress(s0, s, kind, n, budget);
      case 1 => KeyProgress(s0, s, kind, n, budget);
      case 2 => OrderProgress(s0, s, kind, n, budget);
      case 3 => TxtProgress(s0, s, kind, n, budget);
    }
  }

  lemma GettingCertificateAt(s0: State, s: State, kind: Kind, level: nat, t: Task, n: nat, budget: nat)
    returns (n': nat)
    requires Progress(s0, s, kind, level, n) && 4 <= level <= 7 && NextLevel(level, t, kind).Some?
    ensures var o := Execute(t, true, s, budget);
            Progress(s0, o.state, kind, if o.ok then NextLevel(level, t, kind).value else level, n')
  {
    hide Progress, WaitForChanges, AnswerChallenges, RetrieveCertificate, UploadServerCertificate, PartitionOf;
    n' := n;
    match level {
      case 4 => WaitProgress(s0, s, kind, n, budget);
      case 5 => n' := AnswerProgress(s0, s, kind, n, budget);
      case 6 => RetrieveProgress(s0, s, kind, n, budget);
      case 7 => UploadProgress(s0, s, kind, n, budget);
    }
  }

  /** Selecting reads the configuration, which a run does not change. */
  lemma SameListeners(s0: State, s: State, kind: Kind, level: nat, n: nat)
    requires Progress(s0, s, kind, level, n)
    ensures s.shared == s0.shared && s.dedicated == s0.dedicated && Provisions(kind)
  {
  }

  lemma PlacingAt(s0: State, s: State, kind: Kind, level: nat, t: Task, n: nat, budget: nat)
    requires New(s0) && Progress(s0, s, kind, level, n) && 8 <= level <= 9 && NextLevel(level, t, kind).Some?
    requires Provisions(kind)
    ensures var o := Execute(t, true, s, budget);
            At(s0, o.state, kind, if o.ok then NextLevel(level, t, kind).value else level, n)
  {
    hide Progress, InUseNow, New, SelectFrom, AddCertificateToAlb, CreateDistribution;
    SameListeners(s0, s, kind, level, n);
    if t.CreateWebAclTask? || t.PutWafLoggingTask? {
    } else if level == 9 {
      AddProgress(s0, s, kind, n, budget);
    } else if ToDistribution(kind) {
      CreateDistributionProgress(s0, s, kind, n, budget);
    } else {
      SelectProgress(s0, s, kind, n, budget);
    }
  }

  lemma LevelUp(s0: State, s: State, kind: Kind)
    requires InUseNow(s0, s, kind, 12)
    ensures InUseNow(s0, s, kind, 13)
  {
  }

  lemma FinishingAt(s0: State, s: State, kind: Kind, level: nat, t: Task, budget: nat)
    requires InUseNow(s0, s, kind, level) && 10 <= level && NextLevel(level, t, kind).Some?
    ensures var o := Execute(t, true, s, budget);
            InUseNow(s0, o.state, kind, if o.ok then NextLevel(level, t, kind).value else level)
  {
    hide InUseNow, WaitForChanges, CreateAliasRecords;
    match t {
      case CreateAliasTask => AliasProgress(s0, s, kind, budget);
      case WaitForChangesTask => FinalWait(s0, s, kind, budget);
      case ProvisionTask => LevelUp(s0, s, kind);
      case _ =>
    }
  }

  lemma ExecuteAt(s0: State, s: State, kind: Kind, level: nat, t: Task, n: nat, budget: nat) returns (n': nat)
    requires New(s0) && Provisions(kind) && At(s0, s, kind, level, n) && NextLevel(level, t, kind).Some?
    ensures var o := Execute(t, true, s, budget);
            At(s0, o.state, kind, if o.ok then NextLevel(level, t, kind).value else level, n')
  {
    hide Progress, InUseNow, New, Execute;
    n' := n;
    if level <= 3 {
      GettingAccountAt(s0, s, kind, level, t, n, budget);
    } else if level <= 7 {
      n' := GettingCertificateAt(s0, s, kind, level, t, n, budget);
    } else if level <= 9 {
      PlacingAt(s0, s, kind, level, t, n, budget);
    } else {
      FinishingAt(s0, s, kind, level, t, budget);
    }
  }

  /** What a run keeps: it is on track, at some level. */
  ghost predicate Along(s0: State, r: Run, level: nat, n: nat) {
    && Provisions(r.kind)
    && OnTrack(level, r.todo, r.kind)
    && At(s0, r.state, r.kind, level, n)
  }

  /** Retries, and restarts until a certificate is in use. */
  predicate Undisturbed(r: Run, e: Event) {
    e.Try? || (e.Restart? && r.state.current.None?)
  }

  predicate UndisturbedRun(r: Run, events: seq<Event>)
    decreases |events|
  {
    events == [] || (Undisturbed(r, events[0]) && UndisturbedRun(Step(r, events[0]), events[1..]))
  }

  /** A restart forgets the level and nothing else. */
  lemma RestartAt(s0: State, s: State, kind: Kind, level: nat, n: nat)
    requires At(s0, s, kind, level, n) && s.current.None?
    ensures At(s0, s, kind, 0, n)
  {
    assert level <= 9;
    Onward(s0, s, kind, level, 0, n);
  }

  lemma EventAlong(s0: State, r: Run, level: nat, n: nat, e: Event) returns (level': nat, n': nat)
    requires New(s0) && Along(s0, r, level, n) && Undisturbed(r, e)
    ensures Along(s0, Step(r, e), level', n')
  {
    hide At, New, Execute;
    level', n' := level, n;
    if r.todo.Then? {
      match e {
        case Try(budget) =>
          n' := ExecuteAt(s0, r.state, r.kind, level, r.todo.task, n, budget);
          level' := if Execute(r.todo.task, true, r.state, budget).ok
          then NextLevel(level, r.todo.task, r.kind).value else level;
        case Restart =>
          RestartAt(s0, r.state, r.kind, level, n);
          PipelineIsOnTrack(r.kind);
          level' := 0;
      }
    }
  }

  lemma {:induction false} RunAlong(s0: State, r: Run, level: nat, n: nat, events: seq<Event>)
    returns (level': nat, n': nat)
    requires New(s0) && Along(s0, r, level, n) && UndisturbedRun(r, events)
    ensures Along(s0, Steps(r, events), level', n')
    decreases |events|
  {
    hide Along, New;
    level', n' := level, n;
    if events != [] {
      var l, m := EventAlong(s0, r, level, n, events[0]);
      level', n' := RunAlong(s0, Step(r, events[0]), l, m, events[1..]);
    }
  }

  lemma BeginsWithNothing(s0: State, kind: Kind)
    requires New(s0) && Provisions(kind)
    ensures Progress(s0, s0, kind, 0, 0)
  {
    assert s0.iam == s0.iam + {};
    assert NoKey(s0, s0);
  }

  lemma BeginAlong(s0: State, kind: Kind)
    requires New(s0) && Provisions(kind)
    ensures Along(s0, Begin(s0, kind), 0, 0)
  {
    hide New, Progress, OnTrack;
    PipelineIsOnTrack(kind);
    BeginsWithNothing(s0, kind);
  }

  // ---- where a run ends ----

  lemma AliasesAreGoal(s0: State, s: State, kind: Kind)
    requires Placeable(s0, kind) && PointedBefore(s0, s, kind, |s0.domains|)
    requires Outside(s.alias, s0.domains) == Outside(s0.alias, s0.domains)
    ensures Targets(s.alias) == GoalAliases(s0, kind)
  {
    forall d | d in s0.domains ensures d in s.alias && s.alias[d].target == GoalTarget(s0, kind) {
      var i :| 0 <= i < |s0.domains| && s0.domains[i] == d;
    }
    forall d | d !in s0.domains
      ensures (d in s.alias <==> d in s0.alias) && (d in s.alias ==> s.alias[d] == s0.alias[d])
    {
      assert d in s.alias <==> d in Outside(s.alias, s0.domains);
      assert d in s0.alias <==> d in Outside(s0.alias, s0.domains);
    }
  }

  lemma TopIsGoal(s0: State, s: State, kind: Kind)
    requires InUseNow(s0, s, kind, 13)
    ensures Observe(s) == Goal(s0, kind)
  {
    AliasesAreGoal(s0, s, kind);
  }

  /** Every domain's record is in sync, so nothing of an earlier target is left. */
  lemma TopIsPointed(s0: State, s: State, kind: Kind)
    requires InUseNow(s0, s, kind, 13)
    ensures Rotation.PointAt(s, Rotation.Domains(s), {GoalTarget(s0, kind)})
  {
    forall d | d in s.domains
      ensures d in s.alias && Visible(s.alias[d], s.insync) <= {GoalTarget(s0, kind)}
    {
      var i :| 0 <= i < |s0.domains| && s0.domains[i] == d;
      assert Points(s.alias, s.insync, s.changeIds, d, GoalTarget(s0, kind));
    }
  }

  lemma PlaceIsGoal(s0: State, s: State, kind: Kind)
    requires InUseNow(s0, s, kind, 13) && Provisions(kind)
    ensures var place := Rotation.PlaceNow(s);
            && place.Some?
            && Rotation.TargetAt(place.value) == GoalTarget(s0, kind)
            && Rotation.PartitionAt(place.value) == PartitionOf(kind)
            && s.served == Rotation.ServedAt(place.value, ArnOf(s0, kind))
  {
  }

  lemma AttachedIsGoal(s0: State, s: State, kind: Kind)
    requires New(s0) && InUseNow(s0, s, kind, 13) && Provisions(kind)
    ensures Rotation.PlaceNow(s).Some?
    ensures Rotation.Attachments(s, Rotation.Spot(Rotation.PlaceNow(s).value, ArnOf(s0, kind)))
  {
    forall l, a | l in s.attached && a in s.attached[l] && a.Own?
      ensures (l, a) in Rotation.Spot(Rotation.PlaceNow(s).value, ArnOf(s0, kind))
    {
      assert l in s0.attached;
      assert forall b :: b in s0.attached[l] ==> b.Foreign?;
    }
  }

  lemma IdsAreFresh(s0: State, s: State, kind: Kind)
    requires New(s0) && InUseNow(s0, s, kind, 13)
    ensures Rotation.Fresh(s) && Rotation.NoLeak(s)
  {
    assert forall a :: a in s.iam && a.Own? ==> a == ArnOf(s0, kind);
  }

  /** A provisioned instance is as steady as one between renewals. */
  lemma TopIsSteady(s0: State, s: State, kind: Kind)
    requires New(s0) && InUseNow(s0, s, kind, 13) && Provisions(kind)
    ensures RotationRuns.Steady(s)
  {
    TopIsPointed(s0, s, kind);
    PlaceIsGoal(s0, s, kind);
    AttachedIsGoal(s0, s, kind);
    IdsAreFresh(s0, s, kind);
    hide Rotation.PointAt, Rotation.Attachments, Rotation.Fresh, Rotation.NoLeak, New, Rotation.ServedAt,
         Rotation.Spot, Rotation.PlaceNow;
    assert s.certificates[CertificateId(s0)] == GoalRow(s0, kind);
  }

  /**
    Restart confluence. However a provisioning run is retried, and restarted
    before its certificate is in use, when it finishes the state is the goal: a
    function of where it began, so the same as after a run without a fault.
   */
  lemma ProvisioningIsConfluent(s0: State, kind: Kind, events: seq<Event>)
    requires New(s0) && Provisions(kind) && UndisturbedRun(Begin(s0, kind), events)
    requires Steps(Begin(s0, kind), events).todo.Finished?
    ensures Placeable(s0, kind)
    ensures Observe(Steps(Begin(s0, kind), events).state) == Goal(s0, kind)
    ensures RotationRuns.Steady(Steps(Begin(s0, kind), events).state)
  {
    BeginAlong(s0, kind);
    var level, n := RunAlong(s0, Begin(s0, kind), 0, 0, events);
    KindStays(Begin(s0, kind), events);
    var s := Steps(Begin(s0, kind), events).state;
    assert InUseNow(s0, s, kind, 13);
    TopIsGoal(s0, s, kind);
    TopIsSteady(s0, s, kind);
  }

  /** At every moment of the run each challenge sent was live, and none was sent twice. */
  lemma EveryAnswerWasLive(s0: State, kind: Kind, events: seq<Event>)
    requires New(s0) && Provisions(kind) && UndisturbedRun(Begin(s0, kind), events)
    ensures exists n :: 0 <= n <= |s0.domains| && Steps(Begin(s0, kind), events).state.answers == Sent(s0, n)
  {
    BeginAlong(s0, kind);
    var level, n := RunAlong(s0, Begin(s0, kind), 0, 0, events);
    var s := Steps(Begin(s0, kind), events).state;
    if level <= 9 {
      if s.pending.None? {
        assert s.answers == Sent(s0, 0);
      }
    } else {
      assert s.answers == Sent(s0, |s0.domains|);
    }
  }

  // ---- a run without faults gets there ----

  /** More external calls than any task of a run makes. */
  function Enough(s: State): nat {
    |s.domains| + |s.changeIds| + 1
  }

  lemma {:induction false} TxtsSucceed(s: State, todo: seq<Challenge>, budget: nat)
    requires |todo| <= budget
    ensures UpsertTxts(s, todo, budget).ok
    decreases |todo|
  {
    if todo == [] {
    } else if todo[0].answered {
      TxtsSucceed(s, todo[1..], budget);
    } else {
      TxtsSucceed(UpsertTxt(s, todo[0]), todo[1..], budget - 1);
    }
  }

  lemma {:induction false} WaitSucceeds(s: State, budget: nat)
    requires |s.changeIds| <= budget
    ensures WaitForChanges(s, budget).ok
    decreases |s.changeIds|
  {
    if s.changeIds != [] {
      WaitSucceeds(WaitOne(s), budget - 1);
    }
  }

  lemma {:induction false} AnswersSucceed(s: State, id: nat, i: nat, budget: nat)
    requires id in s.certificates && i <= |s.certificates[id].challenges| <= i + budget
    ensures AnswerFrom(s, id, i, budget).ok
    decreases |s.certificates[id].challenges| - i
  {
    if i < |s.certificates[id].challenges| {
      if s.certificates[id].challenges[i].answered {
        AnswersSucceed(s, id, i + 1, budget);
      } else {
        AnswersSucceed(AnswerOne(s, id, i), id, i + 1, budget - 1);
      }
    }
  }

  lemma {:induction false} AliasesSucceed(s: State, todo: seq<string>, budget: nat)
    requires s.internal.Some? && |todo| <= budget
    ensures UpsertAliases(s, todo, budget).ok
    decreases |todo|
  {
    if todo != [] {
      AliasesSucceed(UpsertAlias(s, todo[0], s.internal.value), todo[1..], budget - 1);
    }
  }

  /** What the tasks up to the upload ask of the row. */
  lemma RowIsReady(s0: State, s: State, kind: Kind, level: nat, n: nat)
    requires Progress(s0, s, kind, level, n)
    ensures level >= 2 ==> s.user.Some? && s.pending.Some? && s.pending.value in s.certificates
    ensures level >= 2 ==> s.certificates[s.pending.value].names == s.domains
    ensures level >= 3 ==> s.certificates[s.pending.value].order.Some?
    ensures level >= 3 ==> |s.certificates[s.pending.value].challenges| == |s.domains|
    ensures level >= 6 ==> AllAnswered(s.certificates[s.pending.value].challenges)
    ensures level >= 7 ==> s.certificates[s.pending.value].leaf
  {
  }

  lemma IssuingSucceeds(s0: State, s: State, kind: Kind, level: nat, t: Task, n: nat)
    requires Progress(s0, s, kind, level, n) && level <= 7 && NextLevel(level, t, kind).Some?
    ensures Execute(t, true, s, Enough(s)).ok
  {
    hide Progress, AnswerFrom, WaitForChanges, UpsertTxts;
    RowIsReady(s0, s, kind, level, n);
    match level {
      case 3 => TxtsSucceed(s, s.certificates[s.pending.value].challenges, Enough(s));
      case 4 => WaitSucceeds(s, Enough(s));
      case 5 => AnswersSucceed(s, s.pending.value, 0, Enough(s));
      case _ =>
    }
  }

  /** What the placing tasks ask: an uploaded certificate, and a listener that is there. */
  lemma PlaceIsReady(s0: State, s: State, kind: Kind, level: nat, n: nat)
    requires Progress(s0, s, kind, level, n) && 8 <= level <= 9 && Placeable(s0, kind)
    ensures Usable(s, s.pending)
    ensures !ToDistribution(kind) ==> Listeners(s0, kind) != []
    ensures !ToDistribution(kind) && level == 9 ==> s.listener.Some? && s.listener.value in s.attached
  {
  }

  lemma PlacingSucceeds(s0: State, s: State, kind: Kind, level: nat, t: Task, n: nat)
    requires Progress(s0, s, kind, level, n) && 8 <= level <= 9 && NextLevel(level, t, kind).Some?
    requires Placeable(s0, kind)
    ensures Execute(t, true, s, Enough(s)).ok
  {
    hide Progress, Placeable, Usable;
    PlaceIsReady(s0, s, kind, level, n);
    SameListeners(s0, s, kind, level, n);
  }

  lemma InUseHas(s0: State, s: State, kind: Kind, level: nat)
    requires InUseNow(s0, s, kind, level)
    ensures s.internal.Some? && (ToDistribution(kind) ==> s.distribution.Some?)
  {
  }

  lemma LateTask(level: nat, t: Task, kind: Kind)
    requires 10 <= level && NextLevel(level, t, kind).Some?
    ensures || t.CreateWebAclTask? || t.PutWafLoggingTask? || t.AssociateWebAclTask? || t.ProvisionTask?
            || t.CreateTopicTask? || t.SubscribeTopicTask? || t.CreateNewHealthChecksTask?
            || t.AssociateHealthCheckTask? || t.CreateHealthCheckAlarmsTask? || t.CreateDdosAlarmTask?
            || t.CreateAliasTask? || t.WaitForChangesTask? || (t.WaitForDistributionTask? && ToDistribution(kind))
  {
  }

  lemma FinishingSucceeds(s0: State, s: State, kind: Kind, level: nat, t: Task)
    requires InUseNow(s0, s, kind, level) && 10 <= level && NextLevel(level, t, kind).Some?
    ensures Execute(t, true, s, Enough(s)).ok
  {
    hide InUseNow, NextLevel, UpsertAliases, WaitForChanges;
    InUseHas(s0, s, kind, level);
    LateTask(level, t, kind);
    if t.CreateAliasTask? {
      AliasesSucceed(s, s.domains, Enough(s));
    } else if t.WaitForChangesTask? {
      WaitSucceeds(s, Enough(s));
    }
  }

  lemma NeverStuck(s0: State, r: Run, level: nat, n: nat)
    requires Along(s0, r, level, n) && Placeable(s0, r.kind) && r.todo.Then?
    ensures Execute(r.todo.task, Provisions(r.kind), r.state, Enough(r.state)).ok
  {
    hide Progress, InUseNow, Execute;
    if level <= 7 {
      IssuingSucceeds(s0, r.state, r.kind, level, r.todo.task, n);
    } else if level <= 9 {
      PlacingSucceeds(s0, r.state, r.kind, level, r.todo.task, n);
    } else {
      FinishingSucceeds(s0, r.state, r.kind, level, r.todo.task);
    }
  }

  /** From anywhere in a run, retries alone can bring it to its end. */
  lemma {:induction false} CanFinish(s0: State, r: Run, level: nat, n: nat) returns (events: seq<Event>)
    requires New(s0) && Along(s0, r, level, n) && Placeable(s0, r.kind)
    ensures UndisturbedRun(r, events) && Steps(r, events).todo.Finished?
    decreases r.todo
  {
    hide Along, New, Execute;
    if r.todo.Finished? {
      events := [];
    } else {
      NeverStuck(s0, r, level, n);
      var e := Try(Enough(r.state));
      var l, m := EventAlong(s0, r, level, n, e);
      var more := CanFinish(s0, Step(r, e), l, m);
      events := [e] + more;
      assert events[1..] == more;
    }
  }

  /** Whatever faults and restarts a provisioning run has had, it is never stuck:
      retries can bring it to its end. */
  lemma ProvisioningCanFinish(s0: State, kind: Kind, events: seq<Event>) returns (more: seq<Event>)
    requires New(s0) && Provisions(kind) && Placeable(s0, kind) && UndisturbedRun(Begin(s0, kind), events)
    ensures var r := Steps(Begin(s0, kind), events);
            UndisturbedRun(r, more) && Steps(r, more).todo.Finished?
  {
    BeginAlong(s0, kind);
    var level, n := RunAlong(s0, Begin(s0, kind), 0, 0, events);
    KindStays(Begin(s0, kind), events);
    more := CanFinish(s0, Steps(Begin(s0, kind), events), level, n);
  }
}
