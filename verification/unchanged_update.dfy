/**
  A CDN update that keeps the domains is the identity on certificates: the
  request promotes the current certificate again, and every ACME, TXT and IAM step
  of the pipeline finds its work done.
 */
module UnchangedUpdate {
  import opened Wrappers
  import opened Records
  import opened Tasks
  import opened Pipelines
  import opened Frames
  import opened Rotation
  import opened PhaseOrder
  import opened RotationRuns

  /** The certificate was issued for the domains and its challenges are answered. */
  ghost predicate FullyIssued(s: State, id: nat) {
    && id in s.certificates
    && s.certificates[id].order.Some?
    && s.certificates[id].leaf
    && s.certificates[id].arn.Some?
    && AllAnswered(s.certificates[id].challenges)
    && forall c :: c in s.certificates[id].challenges ==> c.domain in s.domains
  }

  /** Nothing about certificates, orders, answers or validation records differs. */
  predicate SameCertificates(s: State, s': State) {
    && s'.certificates == s.certificates && s'.current == s.current
    && s'.iam == s.iam && s'.served == s.served
    && s'.answers == s.answers && s'.txt == s.txt
    && s'.domains == s.domains
  }

  /** A rotation that promotes the current certificate of a distribution again. */
  ghost predicate Idle(s0: State, s: State, ph: Phase, g: Plan) {
    && InRotation(s, ph, g) && g.reuse && g.place.AtDistribution?
    && SameCertificates(s0, s)
    && FullyIssued(s, g.outgoing)
  }

  predicate AcmeTask(t: Task) {
    || t.GenerateKeyTask? || t.InitiateChallengesTask? || t.CreateTxtTask?
    || t.RemoveOldDnsTask? || t.AnswerChallengesTask? || t.RetrieveCertificateTask? || t.UploadTask?
  }

  lemma {:induction false} NothingToWrite(s: State, todo: seq<Challenge>, budget: nat)
    requires AllAnswered(todo)
    ensures UpsertTxts(s, todo, budget) == Done(s)
    decreases |todo|
  {
    if todo != [] { NothingToWrite(s, todo[1..], budget); }
  }

  lemma {:induction false} NothingToAnswer(s: State, id: nat, i: nat, budget: nat)
    requires id in s.certificates && i <= |s.certificates[id].challenges| && AllAnswered(s.certificates[id].challenges)
    ensures AnswerFrom(s, id, i, budget) == Done(s)
    decreases |s.certificates[id].challenges| - i
  {
    if i < |s.certificates[id].challenges| { NothingToAnswer(s, id, i + 1, budget); }
  }

  lemma {:induction false} NothingToRemove(s: State, todo: seq<Challenge>)
    requires forall c :: c in todo ==> c.domain in s.domains
    ensures DeleteOlds(s, todo) == s
    decreases |todo|
  {
    if todo != [] { NothingToRemove(s, todo[1..]); }
  }

  /** Every ACME, TXT and IAM step does nothing, and succeeds. */
  lemma AcmeTaskIsIdle(t: Task, s: State, g: Plan, budget: nat)
    requires s.pending == Some(g.outgoing) && s.current == Some(g.outgoing)
    requires FullyIssued(s, g.outgoing) && AcmeTask(t)
    ensures Execute(t, false, s, budget) == Done(s)
  {
    var row := s.certificates[g.outgoing];
    match t {
      case CreateTxtTask => NothingToWrite(s, row.challenges, budget);
      case AnswerChallengesTask => NothingToAnswer(s, g.outgoing, 0, budget);
      case RemoveOldDnsTask => NothingToRemove(s, row.challenges);
      case _ =>
    }
  }

  /** The distribution is given the certificate it has. */
  lemma PromotionIsIdle(s: State, ph: Phase, g: Plan, budget: nat)
    requires InRotation(s, ph, g) && ph.stage.Issuing? && g.reuse && g.place.AtDistribution?
    ensures SameCertificates(s, UpdateDistribution(s, budget).state)
  {
  }

  /** There is no previous certificate to delete. */
  lemma DeletionIsIdle(s: State, ph: Phase, g: Plan, p: Partition, budget: nat)
    requires InRotation(s, ph, g) && HasPromoted(ph) && g.reuse
    ensures DeletePreviousCertificates(s, p, budget) == Done(s)
  {
    assert Others(s) == {};
    assert s.certificates - {} == s.certificates;
  }

  lemma IssuingFacts(s: State, ph: Phase, g: Plan)
    requires InRotation(s, ph, g) && ph.stage.Issuing? && g.reuse
    ensures s.pending == Some(g.outgoing) && s.current == Some(g.outgoing)
  {
  }

  /** The tasks that a rotation at a distribution may run, and that are not ACME tasks. */
  predicate CdnTask(t: Task) {
    || t.WaitForChangesTask? || t.CreateAliasTask? || t.UpdateDistributionTask? || t.UpdateCertificateTask?
    || t.DeletePreviousTask?
  }

  lemma CdnTaskIsIdle(t: Task, s: State, ph: Phase, g: Plan, all: bool, budget: nat)
    requires InRotation(s, ph, g) && g.reuse && g.place.AtDistribution? && Allowed(ph, t, g, all) && CdnTask(t)
    ensures SameCertificates(s, Execute(t, false, s, budget).state)
  {
    hide InRotation;
    match t {
      case WaitForChangesTask => WaitFrame(s, budget);
      case CreateAliasTask => AliasFrame(s, s.domains, budget);
      case UpdateDistributionTask => PromotionIsIdle(s, ph, g, budget);
      case UpdateCertificateTask => PromotionIsIdle(s, ph, g, budget);
      case DeletePreviousTask(p) =>
        DeletionIsIdle(s, ph, g, p, budget);
        Reflexive(s);
    }
  }

  lemma Reflexive(s: State)
    ensures SameCertificates(s, s)
  {
  }

  lemma OtherTaskIsIdle(t: Task, s: State, ph: Phase, g: Plan, all: bool, budget: nat)
    requires InRotation(s, ph, g) && g.place.AtDistribution? && Allowed(ph, t, g, all)
    requires !CdnTask(t) && !AcmeTask(t) && !t.CreateUserTask?
    ensures Execute(t, false, s, budget).state == s
  {
    assert !ph.stage.Selected?;
  }

  lemma ExecuteIsIdle(t: Task, s0: State, s: State, ph: Phase, g: Plan, all: bool, budget: nat)
    requires Idle(s0, s, ph, g) && Allowed(ph, t, g, all)
    ensures SameCertificates(s0, Execute(t, false, s, budget).state)
  {
    hide InRotation, FullyIssued, Execute;
    if AcmeTask(t) {
      IssuingFacts(s, ph, g);
      AcmeTaskIsIdle(t, s, g, budget);
    } else if CdnTask(t) {
      CdnTaskIsIdle(t, s, ph, g, all, budget);
    } else if t.CreateUserTask? {
      AccountIsIdle(s, budget);
    } else {
      OtherTaskIsIdle(t, s, ph, g, all, budget);
    }
  }

  lemma AccountIsIdle(s: State, budget: nat)
    ensures SameCertificates(s, Execute(CreateUserTask, false, s, budget).state)
  {
  }

  predicate Updates(kind: Kind) {
    kind.CdnUpdate? || kind.CdnWafUpdate? || kind.CdnToCdnWaf?
  }

  // ---- whole runs ----

  ghost predicate IdleRun(s0: State, r: Run, ph: Phase, g: Plan) {
    && Running(r, ph, g, false)
    && Idle(s0, r.state, ph, g)
  }

  lemma StaysIssued(s: State, s': State, id: nat)
    requires FullyIssued(s, id) && SameCertificates(s, s')
    ensures FullyIssued(s', id)
  {
  }

  lemma TryIsIdle(s0: State, r: Run, ph: Phase, g: Plan, budget: nat)
    requires IdleRun(s0, r, ph, g) && r.todo.Then?
    ensures SameCertificates(s0, Step(r, Try(budget)).state)
  {
    hide InRotation, Execute, SameCertificates, FullyIssued;
    ExecuteIsIdle(r.todo.task, s0, r.state, ph, g, false, budget);
  }

  /** A certificate that was issued cannot be rejected. */
  lemma RejectIsIdle(s: State, ph: Phase, g: Plan)
    requires InRotation(s, ph, g) && g.reuse && FullyIssued(s, g.outgoing)
    ensures RejectOrder(s) == s
  {
  }

  lemma StepIsIdle(s0: State, r: Run, ph: Phase, g: Plan, e: Event) returns (ph': Phase)
    requires IdleRun(s0, r, ph, g) && Admissible(r, g, e) && SameCertificates(s0, r.state)
    requires FullyIssued(s0, g.outgoing)
    ensures IdleRun(s0, Step(r, e), ph', g)
  {
    assert SameCertificates(s0, Step(r, e).state) by {
      hide InRotation, Execute, FullyIssued, RejectOrder;
      match e {
        case Try(budget) => if r.todo.Then? { TryIsIdle(s0, r, ph, g, budget); }
        case Reject => RejectIsIdle(r.state, ph, g);
        case Restart =>
        case Churn(_, _, _) =>
      }
    }
    hide InRotation, Execute, FullyIssued, SameCertificates, RejectOrder, Safe;
    ph' := StepKeeps(r, ph, g, false, e);
    StaysIssued(s0, Step(r, e).state, g.outgoing);
  }

  lemma {:induction false} RunIsIdle(s0: State, r: Run, ph: Phase, g: Plan, events: seq<Event>) returns (ph': Phase)
    requires IdleRun(s0, r, ph, g) && AdmissibleRun(r, g, events) && FullyIssued(s0, g.outgoing)
    ensures IdleRun(s0, Steps(r, events), ph', g)
    decreases |events|
  {
    hide Running, FullyIssued, SameCertificates, Step, InRotation;
    ph' := ph;
    if events != [] {
      var ph1 := StepIsIdle(s0, r, ph, g, events[0]);
      ph' := RunIsIdle(s0, Step(r, events[0]), ph1, g, events[1..]);
    }
  }

  /**
    The identity on certificates. Ask a steady CDN instance, whose certificate is
    fully issued, for the domains it has: at every moment of the run the
    certificate rows, IAM, the distribution's certificate, the answers and the TXT
    records are as they were, and at the end no new certificate is left pending.
   */
  lemma UnchangedUpdateIsIdentity(s: State, kind: Kind, domains: seq<string>, events: seq<Event>)
    requires Startable(s, kind, domains) && Updates(kind) && !Applies(s, kind, domains)
    requires FullyIssued(s, s.current.value)
    requires AdmissibleRun(Begin(Request(s, kind, domains), kind), PlanOf(s, kind, domains), events)
    ensures var r := Steps(Begin(Request(s, kind, domains), kind), events);
            && SameCertificates(s, r.state)
            && (r.todo.Finished? ==> r.state.pending.None? && r.state.certificates.Keys == {s.current.value})
  {
    var g := PlanOf(s, kind, domains);
    var r0 := Begin(Request(s, kind, domains), kind);
    StartRun(s, kind, domains);
    StaysIssued(s, r0.state, s.current.value);
    assert Renewal(kind) == false;
    assert IdleRun(s, r0, START, g);
    var ph := RunIsIdle(s, r0, START, g, events);
    var r := Steps(r0, events);
    if r.todo.Finished? { FinishedIsSteady(r, ph, g, false); }
  }
}
