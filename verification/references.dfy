/**
  References never dangle. Over runs of every pipeline, with any retries,
  rejected orders and restarts, even restarts after a promotion, the three
  certificate columns of the instance name rows that exist, and the current
  certificate is one that can be served: issued, uploaded, and still in IAM.
 */
module References {
  import opened Wrappers
  import opened Records
  import opened Tasks
  import opened Pipelines
  import opened Frames
  import RotationRuns

  /** Where a run is: whether the pending certificate is gone, whether the
      remembered load balancer certificate is gone. */
  datatype Mark = Mark(promoted: bool, retired: bool)

  predicate Promotes(t: Task) {
    || t.AddCertificateToAlbTask? || t.CreateDistributionTask? || t.UpdateDistributionTask? || t.UpdateCertificateTask?
  }

  function Next(m: Mark, t: Task): Mark {
    if Promotes(t) then m.(promoted := true)
    else if t.StoreAlbCertificateTask? then m.(retired := false)
    else if t.RemoveAlbCertificateDuringUpdateToCdnTask? then m.(retired := true)
    else m
  }

  /** Keys are made before the promotion, rows are deleted after it, and at the end no
      load balancer certificate is remembered. */
  predicate Allowed(m: Mark, t: Task, kind: Kind) {
    && (t.GenerateKeyTask? ==> !m.promoted)
    && (t.StoreAlbCertificateTask? ==> kind.DedicatedToCdnWaf?)
    && (t.CreateDistributionTask? ==> !m.promoted && (ToDistribution(kind) || kind.DedicatedToCdnWaf?))
    && (t.DeletePreviousTask? ==> m.promoted && m.retired && !ToDistribution(kind))
  }

  predicate Ordered(m: Mark, todo: Pipeline, kind: Kind)
    decreases todo
  {
    if todo.Finished? then m.retired
    else Allowed(m, todo.task, kind) && Ordered(Next(m, todo.task), todo.rest, kind)
  }

  // ---- the invariant ----

  predicate Names(s: State, id: Option<nat>) {
    id.Some? ==> id.value in s.certificates
  }

  /** The certificate can be served. */
  predicate Servable(s: State, id: nat) {
    && id in s.certificates
    && s.certificates[id].leaf
    && s.certificates[id].arn.Some?
    && s.certificates[id].arn.value in s.iam
  }

  /** An uploaded certificate was issued first, and carries the name of its row. */
  ghost predicate RowsNamed(s: State) {
    forall id :: id in s.certificates && s.certificates[id].arn.Some? ==>
      && s.certificates[id].leaf
      && s.certificates[id].arn.value.Own?
      && s.certificates[id].arn.value.certificate == id
  }

  /** The columns name existing rows, and what they promise holds. */
  ghost predicate Refer(s: State) {
    && RowsNamed(s)
    && Names(s, s.pending)
    && (s.current.Some? ==> Servable(s, s.current.value))
    && (s.albCertificate.Some? ==>
          s.albCertificate.value in s.certificates && s.certificates[s.albCertificate.value].leaf)
  }

  ghost predicate Marked(s: State, m: Mark, kind: Kind) {
    && (m.promoted ==> s.pending.None? || ToDistribution(kind))
    && (m.retired ==> s.albCertificate.None?)
    && (kind.DedicatedToCdnWaf? ==> m.promoted || s.distribution.None?)
  }

  ghost predicate FreshRows(s: State) {
    forall id :: id in s.certificates ==> id < s.nextId
  }

  ghost predicate Sound(s: State, m: Mark, kind: Kind) {
    Refer(s) && FreshRows(s) && Marked(s, m, kind)
  }

  // ---- the tasks ----

  /** The columns and the set of rows are the same, and ids are only handed out. */
  predicate SameColumns(s: State, s': State) {
    && s'.pending == s.pending && s'.current == s.current && s'.albCertificate == s.albCertificate
    && s'.distribution == s.distribution && s'.certificates.Keys == s.certificates.Keys && s'.nextId >= s.nextId
  }

  /** Rows and columns as they were. */
  predicate SameRows(s: State, s': State) {
    s'.certificates == s.certificates && s'.iam == s.iam && SameColumns(s, s')
  }

  lemma SameRowsAreSound(s: State, s': State, m: Mark, kind: Kind)
    requires Sound(s, m, kind) && SameRows(s, s')
    ensures Sound(s', m, kind)
  {
  }

  /** Filling in a row without undoing what was issued or uploaded. */
  predicate FilledIn(s: State, s': State, id: nat, row: Certificate)
    requires id in s.certificates
  {
    var was := s.certificates[id];
    && (was.leaf ==> row.leaf)
    && (row.arn == was.arn
        || (was.arn.None? && row.leaf && row.arn.Some? && row.arn.value.Own? && row.arn.value.certificate == id))
    && s'.certificates == s.certificates[id := row]
    && s.iam <= s'.iam && SameColumns(s, s')
  }

  lemma RowIsSound(s: State, s': State, m: Mark, kind: Kind, id: nat, row: Certificate)
    requires Sound(s, m, kind) && id in s.certificates && FilledIn(s, s', id, row)
    ensures Sound(s', m, kind)
  {
  }

  lemma KeyIsSound(s: State, m: Mark, kind: Kind, budget: nat)
    requires Sound(s, m, kind) && !m.promoted
    ensures Sound(GenerateKey(s, budget).state, m, kind)
  {
  }

  lemma OrderIsSound(s: State, m: Mark, kind: Kind, budget: nat)
    requires Sound(s, m, kind)
    ensures Sound(InitiateChallenges(s, budget).state, m, kind)
  {
    hide Sound;
    var s' := InitiateChallenges(s, budget).state;
    if s' != s { RowIsSound(s, s', m, kind, s.pending.value, s'.certificates[s.pending.value]); }
  }

  lemma RetrieveIsSound(s: State, m: Mark, kind: Kind, budget: nat)
    requires Sound(s, m, kind)
    ensures Sound(RetrieveCertificate(s, budget).state, m, kind)
  {
    hide Sound;
    var s' := RetrieveCertificate(s, budget).state;
    if s' != s { RowIsSound(s, s', m, kind, s.pending.value, s'.certificates[s.pending.value]); }
  }

  lemma UploadIsSound(s: State, m: Mark, kind: Kind, p: Partition, budget: nat)
    requires Sound(s, m, kind)
    ensures Sound(UploadServerCertificate(s, p, budget).state, m, kind)
  {
    hide Sound;
    var s' := UploadServerCertificate(s, p, budget).state;
    if s' != s { RowIsSound(s, s', m, kind, s.pending.value, s'.certificates[s.pending.value]); }
  }

  lemma AnswerOneIsSound(s: State, m: Mark, kind: Kind, id: nat, i: nat)
    requires Sound(s, m, kind) && id in s.certificates && i < |s.certificates[id].challenges|
    ensures Sound(AnswerOne(s, id, i), m, kind)
  {
    hide Sound;
    var s' := AnswerOne(s, id, i);
    RowIsSound(s, s', m, kind, id, s'.certificates[id]);
  }

  lemma {:induction false} AnswersAreSound(s: State, m: Mark, kind: Kind, id: nat, i: nat, budget: nat)
    requires Sound(s, m, kind) && id in s.certificates && i <= |s.certificates[id].challenges|
    ensures Sound(AnswerFrom(s, id, i, budget).state, m, kind)
    decreases |s.certificates[id].challenges| - i
  {
    hide Sound;
    if i < |s.certificates[id].challenges| {
      if s.certificates[id].challenges[i].answered {
        AnswersAreSound(s, m, kind, id, i + 1, budget);
      } else if budget > 0 {
        AnswerOneIsSound(s, m, kind, id, i);
        AnswersAreSound(AnswerOne(s, id, i), m, kind, id, i + 1, budget - 1);
      }
    }
  }

  lemma PromotionIsSound(t: Task, s: State, m: Mark, kind: Kind, budget: nat)
    requires Sound(s, m, kind) && Allowed(m, t, kind) && Promotes(t)
    ensures var o := Execute(t, false, s, budget); Sound(o.state, if o.ok then Next(m, t) else m, kind)
    ensures Execute(t, false, s, budget) == Execute(t, true, s, budget)
  {
  }

  lemma StoreIsSound(s: State, m: Mark, kind: Kind)
    requires Sound(s, m, kind) && kind.DedicatedToCdnWaf?
    ensures Sound(StoreAlbCertificate(s).state, m.(retired := false), kind)
  {
  }

  /** Forgetting the load balancer certificate. */
  lemma ClearedIsSound(s: State, s': State, m: Mark, kind: Kind)
    requires Sound(s, m, kind)
    requires s' == s.(albCertificate := None, previous := None, attached := s'.attached)
    ensures Sound(s', m.(retired := true), kind)
  {
  }

  lemma RetirementIsSound(s: State, m: Mark, kind: Kind, budget: nat)
    requires Sound(s, m, kind)
    ensures var o := RemoveAlbCertificateDuringUpdateToCdn(s, budget);
            Sound(o.state, if o.ok then m.(retired := true) else m, kind)
  {
    hide Sound;
    var o := RemoveAlbCertificateDuringUpdateToCdn(s, budget);
    if o.ok { ClearedIsSound(s, o.state, m, kind); }
  }

  lemma DeleteIsSound(s: State, m: Mark, kind: Kind, p: Partition, budget: nat)
    requires Sound(s, m, kind) && m.promoted && m.retired && !ToDistribution(kind)
    ensures Sound(DeletePreviousCertificates(s, p, budget).state, m, kind)
  {
    DeletionFrame(s, p, Ascending(Others(s)), budget);
    var s' := DeletePreviousCertificates(s, p, budget).state;
    if s.current.Some? {
      assert s.current.value !in Ascending(Others(s));
      assert Servable(s', s.current.value);
    }
  }

  /** Only the row of the rejected order goes, and its challenges with it. */
  lemma RejectionIsSound(s: State, m: Mark, kind: Kind)
    requires Sound(s, m, kind)
    ensures var s' := RejectOrder(s);
            && Sound(s', m, kind)
            && s'.current == s.current && s'.albCertificate == s.albCertificate && s'.iam == s.iam
            && (s' != s ==> s.pending.Some? && s'.certificates == s.certificates - {s.pending.value})
  {
  }

  // ---- runs ----

  predicate LoopTask(t: Task) {
    t.CreateTxtTask? || t.WaitForChangesTask? || t.RemoveOldDnsTask? || t.CreateAliasTask?
  }

  lemma LoopTaskKeepsRows(t: Task, provisioning: bool, s: State, budget: nat)
    requires LoopTask(t)
    ensures SameRows(s, Execute(t, provisioning, s, budget).state)
  {
    match t {
      case CreateTxtTask =>
        if s.pending.Some? && s.pending.value in s.certificates {
          TxtFrame(s, s.certificates[s.pending.value].challenges, budget);
        }
      case WaitForChangesTask => WaitFrame(s, budget);
      case RemoveOldDnsTask =>
        if s.current.Some? && s.current.value in s.certificates {
          RemovalFrame(s, s.certificates[s.current.value].challenges);
        }
      case CreateAliasTask => AliasFrame(s, s.domains, budget);
    }
  }

  predicate RowTask(t: Task) {
    || t.GenerateKeyTask? || t.InitiateChallengesTask? || t.AnswerChallengesTask? || t.RetrieveCertificateTask?
    || t.UploadTask?
  }

  lemma RowTaskIsSound(t: Task, provisioning: bool, s: State, m: Mark, kind: Kind, budget: nat)
    requires Sound(s, m, kind) && Allowed(m, t, kind) && RowTask(t)
    ensures Sound(Execute(t, provisioning, s, budget).state, m, kind)
  {
    hide Sound;
    match t {
      case GenerateKeyTask => KeyIsSound(s, m, kind, budget);
      case InitiateChallengesTask => OrderIsSound(s, m, kind, budget);
      case AnswerChallengesTask =>
        if s.pending.Some? && s.pending.value in s.certificates {
          AnswersAreSound(s, m, kind, s.pending.value, 0, budget);
        }
      case RetrieveCertificateTask => RetrieveIsSound(s, m, kind, budget);
      case UploadTask(p) => UploadIsSound(s, m, kind, p, budget);
    }
  }

  lemma PromotionMarks(t: Task, m: Mark)
    requires Promotes(t)
    ensures Next(m, t) == m.(promoted := true)
    ensures !t.StoreAlbCertificateTask? && !t.DeletePreviousTask? && !t.RemoveAlbCertificateDuringUpdateToCdnTask?
  {
  }

  predicate ColumnTask(t: Task) {
    Promotes(t) || t.StoreAlbCertificateTask? || t.RemoveAlbCertificateDuringUpdateToCdnTask? || t.DeletePreviousTask?
  }

  lemma ColumnTaskIsSound(t: Task, provisioning: bool, s: State, m: Mark, kind: Kind, budget: nat)
    requires Sound(s, m, kind) && Allowed(m, t, kind) && ColumnTask(t)
    ensures var o := Execute(t, provisioning, s, budget);
            Sound(o.state, if o.ok then Next(m, t) else m, kind)
  {
    hide Sound, Promotes, Usable, Others, Ascending;
    if Promotes(t) {
      PromotionIsSound(t, s, m, kind, budget);
      PromotionMarks(t, m);
    } else if t.StoreAlbCertificateTask? {
      StoreIsSound(s, m, kind);
    } else if t.DeletePreviousTask? {
      DeleteIsSound(s, m, kind, t.partition, budget);
    } else {
      RetirementIsSound(s, m, kind, budget);
    }
  }

  /** The other tasks touch listeners, DNS or the account. */
  lemma OtherTaskKeepsRows(t: Task, provisioning: bool, s: State, budget: nat)
    requires !LoopTask(t) && !RowTask(t) && !ColumnTask(t)
    ensures SameRows(s, Execute(t, provisioning, s, budget).state)
  {
    hide Lowest, Others, Ascending;
  }

  lemma ExecuteIsSound(t: Task, provisioning: bool, s: State, m: Mark, kind: Kind, budget: nat)
    requires Sound(s, m, kind) && Allowed(m, t, kind)
    ensures var o := Execute(t, provisioning, s, budget);
            Sound(o.state, if o.ok then Next(m, t) else m, kind)
  {
    hide Sound, Execute, SameRows;
    if RowTask(t) {
      RowTaskIsSound(t, provisioning, s, m, kind, budget);
    } else if ColumnTask(t) {
      ColumnTaskIsSound(t, provisioning, s, m, kind, budget);
    } else {
      if LoopTask(t) {
        LoopTaskKeepsRows(t, provisioning, s, budget);
      } else {
        OtherTaskKeepsRows(t, provisioning, s, budget);
      }
      SameRowsAreSound(s, Execute(t, provisioning, s, budget).state, m, kind);
    }
  }

  function Start(kind: Kind): Mark {
    Mark(false, !kind.DedicatedToCdnWaf?)
  }

  ghost predicate Running(r: Run, m: Mark) {
    && Sound(r.state, m, r.kind)
    && (!r.kind.DedicatedToCdnWaf? ==> m.retired)
    && Ordered(m, r.todo, r.kind)
  }

  lemma RestartIsSound(s: State, m: Mark, kind: Kind)
    requires Sound(s, m, kind) && !kind.DedicatedToCdnWaf? && m.retired
    ensures Sound(s, Start(RestartKind(kind)), RestartKind(kind)) && !RestartKind(kind).DedicatedToCdnWaf?
    ensures Start(RestartKind(kind)).retired
  {
  }

  lemma ChurnIsSound(s: State, m: Mark, kind: Kind, e: Event)
    requires Sound(s, m, kind) && e.Churn?
    ensures Sound(ChurnListener(s, e.listener, e.foreign, e.open), m, kind)
  {
    hide Sound;
    SameRowsAreSound(s, ChurnListener(s, e.listener, e.foreign, e.open), m, kind);
  }

  lemma FirstInOrder(m: Mark, todo: Pipeline, kind: Kind)
    requires Ordered(m, todo, kind) && todo.Then?
    ensures Allowed(m, todo.task, kind) && Ordered(Next(m, todo.task), todo.rest, kind)
    ensures m.retired && !kind.DedicatedToCdnWaf? ==> Next(m, todo.task).retired
  {
  }

  lemma StepIsSound(r: Run, m: Mark, e: Event) returns (m': Mark)
    requires Running(r, m)
    ensures Running(Step(r, e), m')
  {
    hide Sound, Execute, RejectOrder, ChurnListener, TasksOf, Ordered, Start;
    m' := m;
    match e {
      case Try(budget) =>
        if r.todo.Then? {
          FirstInOrder(m, r.todo, r.kind);
          ExecuteIsSound(r.todo.task, Provisions(r.kind), r.state, m, r.kind, budget);
          if Execute(r.todo.task, Provisions(r.kind), r.state, budget).ok { m' := Next(m, r.todo.task); }
        }
      case Reject => RejectionIsSound(r.state, m, r.kind);
      case Restart =>
        if r.todo.Then? && !r.kind.DedicatedToCdnWaf? {
          RestartIsSound(r.state, m, r.kind);
          PipelineIsOrdered(RestartKind(r.kind));
          m' := Start(RestartKind(r.kind));
        }
      case Churn(_, _, _) => ChurnIsSound(r.state, m, r.kind, e);
    }
  }

  lemma {:induction false} RunIsSound(r: Run, m: Mark, events: seq<Event>) returns (m': Mark)
    requires Running(r, m)
    ensures Running(Steps(r, events), m')
    decreases |events|
  {
    hide Running, Sound;
    m' := m;
    if events != [] {
      var m1 := StepIsSound(r, m, events[0]);
      m' := RunIsSound(Step(r, events[0]), m1, events[1..]);
    }
  }

  // ---- the pipelines are ordered ----

  predicate Plain(t: Task) {
    && !t.GenerateKeyTask? && !t.StoreAlbCertificateTask? && !t.DeletePreviousTask? && !Promotes(t)
    && !t.RemoveAlbCertificateDuringUpdateToCdnTask?
  }

  lemma Plainly(m: Mark, t: Task, rest: Pipeline, kind: Kind)
    requires Plain(t) && Ordered(m, rest, kind)
    ensures Ordered(m, Then(t, rest), kind)
  {
  }

  lemma Keying(m: Mark, rest: Pipeline, kind: Kind)
    requires Ordered(m, rest, kind) && !m.promoted
    ensures Ordered(m, Then(GenerateKeyTask, rest), kind)
  {
  }

  lemma Issuing(m: Mark, p: Partition, rest: Pipeline, kind: Kind)
    requires Ordered(m, rest, kind) && !m.promoted
    ensures Ordered(m, Issue(p, rest), kind) && Ordered(m, Then(CreateUserTask, Issue(p, rest)), kind)
  {
    hide Ordered;
    var p6 := Then(UploadTask(p), rest);
    Plainly(m, UploadTask(p), rest, kind);
    var p5 := Then(RetrieveCertificateTask, p6);
    Plainly(m, RetrieveCertificateTask, p6, kind);
    var p4 := Then(AnswerChallengesTask, p5);
    Plainly(m, AnswerChallengesTask, p5, kind);
    var p3 := Then(WaitForChangesTask, p4);
    Plainly(m, WaitForChangesTask, p4, kind);
    Plainly(m, CreateTxtTask, p3, kind);
    Plainly(m, InitiateChallengesTask, Then(CreateTxtTask, p3), kind);
    Keying(m, Then(InitiateChallengesTask, Then(CreateTxtTask, p3)), kind);
    Plainly(m, CreateUserTask, Issue(p, rest), kind);
  }

  lemma Reissuing(m: Mark, p: Partition, rest: Pipeline, kind: Kind)
    requires Ordered(m, rest, kind) && !m.promoted
    ensures Ordered(m, Reissue(p, rest), kind)
  {
    hide Ordered;
    var p7 := Then(UploadTask(p), rest);
    Plainly(m, UploadTask(p), rest, kind);
    var p6 := Then(RetrieveCertificateTask, p7);
    Plainly(m, RetrieveCertificateTask, p7, kind);
    var p5 := Then(AnswerChallengesTask, p6);
    Plainly(m, AnswerChallengesTask, p6, kind);
    var p4 := Then(RemoveOldDnsTask, p5);
    Plainly(m, RemoveOldDnsTask, p5, kind);
    var p3 := Then(WaitForChangesTask, p4);
    Plainly(m, WaitForChangesTask, p4, kind);
    Plainly(m, CreateTxtTask, p3, kind);
    Plainly(m, InitiateChallengesTask, Then(CreateTxtTask, p3), kind);
    Keying(m, Then(InitiateChallengesTask, Then(CreateTxtTask, p3)), kind);
  }

  lemma Pointing(m: Mark, rest: Pipeline, kind: Kind)
    requires Ordered(m, rest, kind)
    ensures Ordered(m, PointDns(rest), kind) && Ordered(m, AlbWaf(PointDns(rest)), kind)
    ensures Ordered(m, Then(WaitForDistributionTask, PointDns(rest)), kind)
  {
    hide Ordered;
    Plainly(m, WaitForChangesTask, rest, kind);
    Plainly(m, CreateAliasTask, Then(WaitForChangesTask, rest), kind);
    var p := PointDns(rest);
    Plainly(m, AssociateWebAclTask, p, kind);
    Plainly(m, PutWafLoggingTask, Then(AssociateWebAclTask, p), kind);
    Plainly(m, CreateWebAclTask, Then(PutWafLoggingTask, Then(AssociateWebAclTask, p)), kind);
    Plainly(m, WaitForDistributionTask, p, kind);
  }

  lemma Promoting(m: Mark, t: Task, rest: Pipeline, kind: Kind)
    requires Promotes(t) && Ordered(m.(promoted := true), rest, kind)
    requires t.CreateDistributionTask? ==> !m.promoted && (ToDistribution(kind) || kind.DedicatedToCdnWaf?)
    ensures Ordered(m, Then(t, rest), kind)
  {
  }

  lemma Placing(m: Mark, rest: Pipeline, kind: Kind)
    requires Ordered(m.(promoted := true), rest, kind)
    ensures Ordered(m, ToAlb(rest), kind) && Ordered(m, ToDedicatedAlb(rest), kind)
  {
    hide Ordered;
    Promoting(m, AddCertificateToAlbTask, rest, kind);
    Plainly(m, SelectAlbTask, Then(AddCertificateToAlbTask, rest), kind);
    Plainly(m, SelectDedicatedAlbTask, Then(AddCertificateToAlbTask, rest), kind);
  }

  lemma Monitoring(m: Mark, rest: Pipeline, kind: Kind)
    requires Ordered(m, rest, kind)
    ensures Ordered(m, Monitor(rest), kind) && Ordered(m, UpdateMonitoring(rest), kind)
  {
    hide Ordered;
    var p := Then(CreateHealthCheckAlarmsTask, Then(CreateDdosAlarmTask, rest));
    Plainly(m, CreateDdosAlarmTask, rest, kind);
    Plainly(m, CreateHealthCheckAlarmsTask, Then(CreateDdosAlarmTask, rest), kind);
    var q := Then(AssociateHealthCheckTask, p);
    Plainly(m, AssociateHealthCheckTask, p, kind);
    Plainly(m, CreateNewHealthChecksTask, q, kind);
    Plainly(m, SubscribeTopicTask, Then(CreateNewHealthChecksTask, q), kind);
    Plainly(m, CreateTopicTask, Then(SubscribeTopicTask, Then(CreateNewHealthChecksTask, q)), kind);
    Updating(m, p, kind);
    var u := CheckUpdates(rest);
    Plainly(m, SubscribeTopicTask, u, kind);
    Plainly(m, UnsubscribeTopicTask, Then(SubscribeTopicTask, u), kind);
    Plainly(m, CreateTopicTask, Then(UnsubscribeTopicTask, Then(SubscribeTopicTask, u)), kind);
  }

  lemma Updating(m: Mark, p: Pipeline, kind: Kind)
    requires Ordered(m, p, kind)
    ensures var q := Then(DeleteUnusedHealthChecksTask, Then(DeleteHealthCheckAlarmsTask, p));
            Ordered(m, Then(CreateNewHealthChecksTask, Then(UpdateAssociatedHealthCheckTask, q)), kind)
  {
    hide Ordered;
    Plainly(m, DeleteHealthCheckAlarmsTask, p, kind);
    var q := Then(DeleteUnusedHealthChecksTask, Then(DeleteHealthCheckAlarmsTask, p));
    Plainly(m, DeleteUnusedHealthChecksTask, Then(DeleteHealthCheckAlarmsTask, p), kind);
    Plainly(m, UpdateAssociatedHealthCheckTask, q, kind);
    Plainly(m, CreateNewHealthChecksTask, Then(UpdateAssociatedHealthCheckTask, q), kind);
  }

  lemma Deleting(p: Partition, rest: Pipeline, kind: Kind)
    requires Ordered(Mark(true, true), rest, kind) && !ToDistribution(kind)
    ensures Ordered(Mark(true, true), Then(DeletePreviousTask(p), rest), kind)
  {
  }

  lemma Ending(t: Task, kind: Kind, m: Mark)
    requires Plain(t) && m.retired
    ensures Ordered(m, Then(t, Finished), kind)
  {
  }

  lemma AlbIsOrdered(kind: Kind)
    requires kind.AlbUpdate? || kind.AlbRenewal? || kind.DedicatedUpdate? || kind.DedicatedRenewal?
    ensures Ordered(Start(kind), TasksOf(kind), kind)
  {
    hide Ordered;
    var m := Mark(false, true);
    var end := Then(ProvisionTask, Finished);
    Ending(ProvisionTask, kind, Mark(true, true));
    Deleting(GovCloud, end, kind);
    Plainly(Mark(true, true), RemoveFromPreviousAlbTask, Then(DeletePreviousTask(GovCloud), end), kind);
    Pointing(Mark(true, true), CleanUpAlb(GovCloud), kind);
    var p := PointDns(CleanUpAlb(GovCloud));
    Placing(m, p, kind);
    Placing(m, AlbWaf(p), kind);
    match kind {
      case AlbUpdate => Reissuing(m, GovCloud, ToAlb(p), kind);
      case AlbRenewal => Issuing(m, GovCloud, ToAlb(p), kind);
      case DedicatedUpdate => Reissuing(m, GovCloud, ToDedicatedAlb(AlbWaf(p)), kind);
      case DedicatedRenewal => Issuing(m, GovCloud, ToDedicatedAlb(p), kind);
    }
  }

  lemma ProvisioningWaf(m: Mark, rest: Pipeline, kind: Kind)
    requires Ordered(m.(promoted := true), rest, kind) && !m.promoted
    requires ToDistribution(kind) || kind.DedicatedToCdnWaf?
    ensures Ordered(m, ToNewDistribution(rest), kind)
  {
    hide Ordered;
    Pointing(m.(promoted := true), rest, kind);
    var q := Then(WaitForDistributionTask, PointDns(rest));
    Promoting(m, CreateDistributionTask, q, kind);
    Plainly(m, PutWafLoggingTask, Then(CreateDistributionTask, q), kind);
    Plainly(m, CreateWebAclTask, Then(PutWafLoggingTask, Then(CreateDistributionTask, q)), kind);
  }

  lemma ProvisionIsOrdered(kind: Kind)
    requires Provisions(kind)
    ensures Ordered(Start(kind), TasksOf(kind), kind)
  {
    hide Ordered;
    var m := Mark(false, true);
    var end := Then(ProvisionTask, Finished);
    Ending(ProvisionTask, kind, Mark(true, true));
    Pointing(Mark(true, true), end, kind);
    match kind {
      case AlbProvision =>
        Placing(m, PointDns(end), kind);
        Issuing(m, GovCloud, ToAlb(PointDns(end)), kind);
      case DedicatedProvision =>
        Placing(m, AlbWaf(PointDns(end)), kind);
        Issuing(m, GovCloud, ToDedicatedAlb(AlbWaf(PointDns(end))), kind);
      case CdnProvision =>
        var p := Then(WaitForDistributionTask, PointDns(end));
        Promoting(m, CreateDistributionTask, p, kind);
        Issuing(m, Commercial, Then(CreateDistributionTask, p), kind);
      case CdnWafProvision =>
        Monitoring(Mark(true, true), end, kind);
        ProvisioningWaf(m, Monitor(end), kind);
        Issuing(m, Commercial, ToNewDistribution(Monitor(end)), kind);
    }
  }

  lemma Redistributing(rest: Pipeline, kind: Kind)
    requires Ordered(Mark(true, true), rest, kind) && !ToDistribution(kind)
    ensures Ordered(Mark(false, true), Redistribute(rest), kind)
    ensures Ordered(Mark(false, true), Then(CreateWebAclTask, Redistribute(rest)), kind)
    ensures Ordered(Mark(false, true), Then(CreateWebAclTask, Then(PutWafLoggingTask, Redistribute(rest))), kind)
  {
    hide Ordered;
    var m := Mark(false, true);
    Deleting(Commercial, rest, kind);
    Pointing(Mark(true, true), Then(DeletePreviousTask(Commercial), rest), kind);
    var p := Redistribute(rest);
    Promoting(m, UpdateDistributionTask, p.rest, kind);
    Plainly(m, CreateWebAclTask, p, kind);
    Plainly(m, PutWafLoggingTask, p, kind);
    Plainly(m, CreateWebAclTask, Then(PutWafLoggingTask, p), kind);
  }

  lemma CdnIsOrdered(kind: Kind)
    requires kind.CdnUpdate? || kind.CdnRenewal? || kind.CdnWafUpdate? || kind.CdnToCdnWaf?
    ensures Ordered(Start(kind), TasksOf(kind), kind)
  {
    hide Ordered;
    var m := Mark(false, true);
    var end := Then(UpdateCompleteTask, Finished);
    Ending(UpdateCompleteTask, kind, Mark(true, true));
    Monitoring(Mark(true, true), end, kind);
    match kind {
      case CdnUpdate =>
        Redistributing(end, kind);
        Reissuing(m, Commercial, Redistribute(end), kind);
      case CdnRenewal =>
        Ending(ProvisionTask, kind, Mark(true, true));
        Deleting(Commercial, Then(ProvisionTask, Finished), kind);
        var p := Then(DeletePreviousTask(Commercial), Then(ProvisionTask, Finished));
        Promoting(m, UpdateCertificateTask, p, kind);
        Issuing(m, Commercial, Then(UpdateCertificateTask, p), kind);
      case CdnWafUpdate =>
        var p := Redistribute(UpdateMonitoring(end));
        Redistributing(UpdateMonitoring(end), kind);
        Reissuing(m, Commercial, Then(CreateWebAclTask, Then(PutWafLoggingTask, p)), kind);
      case CdnToCdnWaf =>
        var p := Redistribute(Monitor(end));
        Redistributing(Monitor(end), kind);
        Issuing(m, Commercial, Then(CreateWebAclTask, p), kind);
    }
  }

  lemma MoveToDedicatedIsOrdered()
    ensures Ordered(Mark(false, true), TasksOf(AlbToDedicated), AlbToDedicated)
  {
    hide Ordered;
    var end := Then(ProvisionTask, Finished);
    Ending(ProvisionTask, AlbToDedicated, Mark(true, true));
    var p := Then(RemoveFromPreviousDuringUpdateToDedicatedTask, end);
    Plainly(Mark(true, true), RemoveFromPreviousDuringUpdateToDedicatedTask, end, AlbToDedicated);
    Pointing(Mark(true, true), p, AlbToDedicated);
    Placing(Mark(false, true), AlbWaf(PointDns(p)), AlbToDedicated);
  }

  lemma RetiringIsOrdered(kind: Kind)
    requires kind.DedicatedToCdnWaf?
    ensures Ordered(Mark(true, false), RetireAlb(GovCloud), kind)
  {
    Ending(UpdateCompleteTask, kind, Mark(true, true));
    Plainly(Mark(true, true), ChangeToCdnDedicatedWafTask, Then(UpdateCompleteTask, Finished), kind);
    Deleting(GovCloud, Then(ChangeToCdnDedicatedWafTask, Then(UpdateCompleteTask, Finished)), kind);
  }

  lemma MoveToCdnIsOrdered(kind: Kind)
    requires kind.DedicatedToCdnWaf?
    ensures Ordered(Mark(false, false), TasksOf(kind), kind)
  {
    RetiringIsOrdered(kind);
    hide Ordered;
    var m := Mark(false, false);
    var p := Monitor(RetireAlb(GovCloud));
    Monitoring(Mark(true, false), RetireAlb(GovCloud), kind);
    ProvisioningWaf(m, p, kind);
    Reissuing(m, Commercial, ToNewDistribution(p), kind);
    Storing(Reissue(Commercial, ToNewDistribution(p)), kind);
  }

  lemma Storing(rest: Pipeline, kind: Kind)
    requires Ordered(Mark(false, false), rest, kind) && kind.DedicatedToCdnWaf?
    ensures Ordered(Mark(false, false), Then(StoreAlbCertificateTask, rest), kind)
  {
  }

  lemma PipelineIsOrdered(kind: Kind)
    ensures Ordered(Start(kind), TasksOf(kind), kind)
  {
    hide Ordered;
    match kind {
      case AlbProvision => ProvisionIsOrdered(kind);
      case DedicatedProvision => ProvisionIsOrdered(kind);
      case CdnProvision => ProvisionIsOrdered(kind);
      case CdnWafProvision => ProvisionIsOrdered(kind);
      case AlbToDedicated => MoveToDedicatedIsOrdered();
      case DedicatedToCdnWaf => MoveToCdnIsOrdered(kind);
      case CdnUpdate => CdnIsOrdered(kind);
      case CdnRenewal => CdnIsOrdered(kind);
      case CdnWafUpdate => CdnIsOrdered(kind);
      case CdnToCdnWaf => CdnIsOrdered(kind);
      case _ => AlbIsOrdered(kind);
    }
  }

  // ---- main results ----

  /** What an operation may start from. */
  ghost predicate Ready(s: State) {
    Refer(s) && FreshRows(s) && s.albCertificate.None?
  }

  lemma RunningRefers(r: Run, m: Mark)
    requires Running(r, m)
    ensures Refer(r.state) && FreshRows(r.state)
    ensures r.todo.Finished? || !r.kind.DedicatedToCdnWaf? ==> Ready(r.state)
  {
  }

  lemma BeginsSound(s: State, kind: Kind)
    requires Ready(s) && (kind.DedicatedToCdnWaf? ==> s.distribution.None?)
    ensures Running(Begin(s, kind), Start(kind))
  {
    hide Ordered;
    PipelineIsOrdered(kind);
  }

  /**
    References never dangle. Start any pipeline where the columns refer to rows
    and no load balancer certificate is remembered; after any events they refer to
    rows again, and the current certificate, if there is one, can be served. The next
    operation may start from there, unless this one was to end at a new distribution and
    has not.
   */
  lemma ReferencesNeverDangle(s: State, kind: Kind, events: seq<Event>)
    requires Ready(s)
    requires kind.DedicatedToCdnWaf? ==> s.distribution.None?
    ensures var r := Steps(Begin(s, kind), events);
            Refer(r.state) && (r.todo.Finished? || !kind.DedicatedToCdnWaf? ==> Ready(r.state))
  {
    hide Running, Ready, Refer, Step;
    BeginsSound(s, kind);
    var m := RunIsSound(Begin(s, kind), Start(kind), events);
    KindStays(Begin(s, kind), events);
    RunningRefers(Steps(Begin(s, kind), events), m);
  }

  /** A request and what happens to the pipeline it queues. */
  datatype Operation = Operation(kind: Kind, domains: seq<string>, events: seq<Event>)

  function Requested(s: State, op: Operation): State {
    if Provisions(op.kind) then s else RotationRuns.Request(s, op.kind, op.domains)
  }

  function RunOf(s: State, op: Operation): Run {
    Steps(Begin(Requested(s, op), op.kind), op.events)
  }

  function AfterAll(s: State, ops: seq<Operation>): State
    decreases |ops|
  {
    if ops == [] then s else AfterAll(RunOf(s, ops[0]).state, ops[1..])
  }

  /** The move to a distribution begins without one, and is finished before another
      operation begins. */
  predicate Orderly(s: State, ops: seq<Operation>)
    decreases |ops|
  {
    ops == [] ||
    (&& (ops[0].kind.DedicatedToCdnWaf? ==>
           s.distribution.None? && (|ops| > 1 ==> RunOf(s, ops[0]).todo.Finished?))
     && Orderly(RunOf(s, ops[0]).state, ops[1..]))
  }

  lemma RequestIsReady(s: State, op: Operation)
    requires Ready(s)
    ensures Ready(Requested(s, op)) && Requested(s, op).distribution == s.distribution
  {
  }

  /** One operation after another, each finished or given up: at every moment of the last
      the columns refer to rows, and the current certificate can be served. */
  lemma {:induction false} ReferencesStayOverOperations(s: State, ops: seq<Operation>)
    requires Ready(s) && Orderly(s, ops)
    ensures Refer(AfterAll(s, ops))
    decreases |ops|
  {
    hide Refer, Steps, RotationRuns.Request;
    if ops != [] {
      RequestIsReady(s, ops[0]);
      ReferencesNeverDangle(Requested(s, ops[0]), ops[0].kind, ops[0].events);
      var s1 := RunOf(s, ops[0]).state;
      if |ops| > 1 {
        ReferencesStayOverOperations(s1, ops[1..]);
      }
    }
  }
}
