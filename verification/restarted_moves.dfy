/**
  What the stalled scan cannot do for plan moves. A move to a dedicated load balancer
  that it starts again goes on as an update of a dedicated instance. The update looks for
  another certificate than the current one to take off the previous listener, and the
  move has none: it never finishes, unless it is started once more after its certificate
  was promoted. A move to a distribution is not started again at all, so a rejected order
  is the end of it.
 */
module RestartedMoves {
  import opened Wrappers
  import opened Records
  import opened Tasks
  import opened Pipelines
  import opened Frames
  import opened Provisioning
  import opened Rotation
  import opened RotationRuns
  import Lifecycle

  /** One certificate row, issued, current, and pending until it is promoted again. */
  predicate OneRow(s: State, c: nat, promoted: bool) {
    && s.certificates.Keys == {c} && s.certificates[c].leaf && s.current == Some(c)
    && s.pending == if promoted then None else Some(c)
  }

  /** Tasks that touch neither the set of rows nor the columns. */
  predicate Plain(t: Task) {
    || t.InitiateChallengesTask? || t.CreateTxtTask? || t.WaitForChangesTask? || t.RemoveOldDnsTask?
    || t.AnswerChallengesTask? || t.RetrieveCertificateTask? || t.UploadTask? || t.SelectDedicatedAlbTask?
    || t.CreateWebAclTask? || t.PutWafLoggingTask? || t.AssociateWebAclTask? || t.CreateAliasTask?
  }

  predicate LoopTask(t: Task) {
    || t.CreateTxtTask? || t.WaitForChangesTask? || t.RemoveOldDnsTask? || t.CreateAliasTask?
    || t.AnswerChallengesTask?
  }

  /** The chain comes to take a certificate off the previous listener. */
  predicate Leads(todo: Pipeline, promoted: bool)
    decreases todo
  {
    todo.Then? &&
    match todo.task
    case RemoveFromPreviousAlbTask => true
    case GenerateKeyTask => !promoted && Leads(todo.rest, promoted)
    case AddCertificateToAlbTask => Leads(todo.rest, true)
    case t => Plain(t) && Leads(todo.rest, promoted)
  }

  // ---- the tasks ----

  lemma {:induction false} AnswersKeepOne(s: State, c: nat, promoted: bool, i: nat, budget: nat)
    requires OneRow(s, c, promoted) && i <= |s.certificates[c].challenges|
    ensures OneRow(AnswerFrom(s, c, i, budget).state, c, promoted)
    decreases |s.certificates[c].challenges| - i
  {
    if i < |s.certificates[c].challenges| {
      if s.certificates[c].challenges[i].answered {
        AnswersKeepOne(s, c, promoted, i + 1, budget);
      } else if budget > 0 {
        AnswersKeepOne(AnswerOne(s, c, i), c, promoted, i + 1, budget - 1);
      }
    }
  }

  lemma LoopKeepsOne(t: Task, s: State, c: nat, promoted: bool, budget: nat)
    requires OneRow(s, c, promoted)
    requires LoopTask(t)
    ensures OneRow(Execute(t, false, s, budget).state, c, promoted)
  {
    match t {
      case CreateTxtTask => if !promoted { TxtFrame(s, s.certificates[c].challenges, budget); }
      case WaitForChangesTask => WaitFrame(s, budget);
      case RemoveOldDnsTask => RemovalFrame(s, s.certificates[c].challenges);
      case CreateAliasTask => AliasFrame(s, s.domains, budget);
      case AnswerChallengesTask => if !promoted { AnswersKeepOne(s, c, promoted, 0, budget); }
    }
  }

  lemma PlainKeepsOne(t: Task, s: State, c: nat, promoted: bool, budget: nat)
    requires OneRow(s, c, promoted) && Plain(t)
    ensures OneRow(Execute(t, false, s, budget).state, c, promoted)
  {
    if LoopTask(t) {
      hide Execute, OneRow;
      LoopKeepsOne(t, s, c, promoted, budget);
    } else {
      hide Lowest, NewChallenges, AllAnswered;
    }
  }

  lemma NoneToRemove(s: State, c: nat, promoted: bool, budget: nat)
    requires OneRow(s, c, promoted)
    ensures RemoveCertificateFromPreviousAlb(s, budget) == Failed(s)
  {
    assert Others(s) == {};
  }

  lemma AddPromotesOne(s: State, c: nat, promoted: bool, budget: nat)
    requires OneRow(s, c, promoted)
    ensures var o := AddCertificateToAlb(s, budget); OneRow(o.state, c, promoted || o.ok)
  {
  }

  // ---- runs ----

  predicate Caught(r: Run, c: nat, promoted: bool) {
    r.kind.DedicatedUpdate? && OneRow(r.state, c, promoted) && Leads(r.todo, promoted)
  }

  lemma TryIsCaught(r: Run, c: nat, promoted: bool, budget: nat) returns (promoted': bool)
    requires Caught(r, c, promoted)
    ensures Caught(Step(r, Try(budget)), c, promoted')
  {
    hide OneRow;
    promoted' := promoted;
    match r.todo.task {
      case RemoveFromPreviousAlbTask => NoneToRemove(r.state, c, promoted, budget);
      case GenerateKeyTask => KeyIsThere(r.state, c, budget);
      case AddCertificateToAlbTask =>
        AddPromotesOne(r.state, c, promoted, budget);
        promoted' := promoted || AddCertificateToAlb(r.state, budget).ok;
      case t =>
        hide Execute;
        PlainKeepsOne(t, r.state, c, promoted, budget);
    }
  }

  lemma KeyIsThere(s: State, c: nat, budget: nat)
    requires OneRow(s, c, false)
    ensures GenerateKey(s, budget) == Done(s)
  {
  }

  lemma OneMoreLeads(t: Task, rest: Pipeline, promoted: bool)
    requires Leads(rest, promoted || t.AddCertificateToAlbTask?)
    requires Plain(t) || t.AddCertificateToAlbTask? || (t.GenerateKeyTask? && !promoted)
    ensures Leads(Then(t, rest), promoted)
  {
  }

  lemma PlacingLeads(partition: Partition)
    ensures Leads(ToDedicatedAlb(AlbWaf(PointDns(CleanUpAlb(partition)))), false)
  {
    var end := CleanUpAlb(partition);
    assert Leads(end, true);
    hide Leads;
    OneMoreLeads(WaitForChangesTask, end, true);
    OneMoreLeads(CreateAliasTask, Then(WaitForChangesTask, end), true);
    var p := PointDns(end);
    OneMoreLeads(AssociateWebAclTask, p, true);
    OneMoreLeads(PutWafLoggingTask, Then(AssociateWebAclTask, p), true);
    OneMoreLeads(CreateWebAclTask, Then(PutWafLoggingTask, Then(AssociateWebAclTask, p)), true);
    OneMoreLeads(AddCertificateToAlbTask, AlbWaf(p), false);
    OneMoreLeads(SelectDedicatedAlbTask, Then(AddCertificateToAlbTask, AlbWaf(p)), false);
  }

  lemma UpdateLeads(partition: Partition)
    ensures Leads(DedicatedUpdateTasks(partition), false)
  {
    hide Leads;
    PlacingLeads(partition);
    var q := ToDedicatedAlb(AlbWaf(PointDns(CleanUpAlb(partition))));
    OneMoreLeads(UploadTask(partition), q, false);
    var u := Then(RetrieveCertificateTask, Then(UploadTask(partition), q));
    OneMoreLeads(RetrieveCertificateTask, Then(UploadTask(partition), q), false);
    OneMoreLeads(AnswerChallengesTask, u, false);
    OneMoreLeads(RemoveOldDnsTask, Then(AnswerChallengesTask, u), false);
    var v := Then(WaitForChangesTask, Then(RemoveOldDnsTask, Then(AnswerChallengesTask, u)));
    OneMoreLeads(WaitForChangesTask, v.rest, false);
    OneMoreLeads(CreateTxtTask, v, false);
    OneMoreLeads(InitiateChallengesTask, Then(CreateTxtTask, v), false);
    OneMoreLeads(GenerateKeyTask, Then(InitiateChallengesTask, Then(CreateTxtTask, v)), false);
  }

  lemma StepIsCaught(r: Run, c: nat, promoted: bool, e: Event) returns (promoted': bool)
    requires Caught(r, c, promoted) && (e.Restart? ==> r.state.pending.Some?)
    ensures Caught(Step(r, e), c, promoted')
  {
    promoted' := promoted;
    match e {
      case Try(budget) =>
        hide Caught, Step;
        promoted' := TryIsCaught(r, c, promoted, budget);
      case Reject =>
      case Restart =>
        hide Leads, DedicatedUpdateTasks;
        UpdateLeads(GovCloud);
        assert TasksOf(DedicatedUpdate) == DedicatedUpdateTasks(GovCloud);
      case Churn(_, _, _) =>
    }
  }

  /** No restart comes after the promotion. */
  predicate RestartsEarly(r: Run, events: seq<Event>)
    decreases |events|
  {
    events == [] || ((events[0].Restart? ==> r.state.pending.Some?) && RestartsEarly(Step(r, events[0]), events[1..]))
  }

  lemma {:induction false} RunIsCaught(r: Run, c: nat, promoted: bool, events: seq<Event>)
    requires Caught(r, c, promoted) && RestartsEarly(r, events)
    ensures Steps(r, events).todo.Then?
    decreases |events|
  {
    if events != [] {
      hide Caught, Step;
      var promoted1 := StepIsCaught(r, c, promoted, events[0]);
      RunIsCaught(Step(r, events[0]), c, promoted1, events[1..]);
    }
  }

  lemma NotPromotedYet(s: State, ph: Phase, g: Plan)
    requires InRotation(s, ph, g) && g.reuse && g.place.AtListener? && s.pending.Some?
    ensures OneRow(s, g.outgoing, false)
  {
  }

  // ---- main result ----

  /**
    A restarted move is caught. Let anything admissible happen to a move to a dedicated
    load balancer, and let the scan start it again before its certificate is promoted:
    whatever happens next, short of another restart after the promotion, it does not
    finish. Nothing goes down while the restarts come before the selection (see
    RotationIsSafe).
   */
  lemma RestartedMoveNeverFinishes(s: State, domains: seq<string>, before: seq<Event>, after: seq<Event>)
    requires Startable(s, AlbToDedicated, domains)
    requires AdmissibleRun(Begin(Request(s, AlbToDedicated, domains), AlbToDedicated),
                           PlanOf(s, AlbToDedicated, domains), before)
    requires var r := Steps(Begin(Request(s, AlbToDedicated, domains), AlbToDedicated), before);
             r.todo.Then? && r.state.pending.Some? && RestartsEarly(Step(r, Restart), after)
    ensures var r := Steps(Begin(Request(s, AlbToDedicated, domains), AlbToDedicated), before);
            Steps(Step(r, Restart), after).todo.Then?
  {
    hide Running, Steady, AdmissibleRun, Leads, OneRow, Steps, DedicatedUpdateTasks;
    var g := PlanOf(s, AlbToDedicated, domains);
    var r0 := Begin(Request(s, AlbToDedicated, domains), AlbToDedicated);
    StartRun(s, AlbToDedicated, domains);
    var ph := RunKeeps(r0, START, g, false, before);
    var r := Steps(r0, before);
    InRotationNow(r, ph, g, false);
    NotPromotedYet(r.state, ph, g);
    KindStays(r0, before);
    UpdateLeads(GovCloud);
    assert TasksOf(DedicatedUpdate) == DedicatedUpdateTasks(GovCloud);
    assert Caught(Step(r, Restart), g.outgoing, false);
    RunIsCaught(Step(r, Restart), g.outgoing, false, after);
  }

  lemma InRotationNow(r: Run, ph: Phase, g: Plan, all: bool)
    requires Running(r, ph, g, all)
    ensures InRotation(r.state, ph, g)
  {
  }

  /** A move to a distribution whose order was rejected has nothing to retrieve, and no
      event changes that. */
  lemma {:induction false} RejectedMoveNeverFinishes(r: Run, events: seq<Event>)
    requires r.kind.DedicatedToCdnWaf? && r.state.pending.None?
    requires r.todo.Then? && r.todo.task.RetrieveCertificateTask?
    ensures Steps(r, events).todo == r.todo
    decreases |events|
  {
    if events != [] {
      RejectedMoveStays(r, events[0]);
      hide Step;
      RejectedMoveNeverFinishes(Step(r, events[0]), events[1..]);
    }
  }

  lemma RejectedMoveStays(r: Run, e: Event)
    requires r.kind.DedicatedToCdnWaf? && r.state.pending.None?
    requires r.todo.Then? && r.todo.task.RetrieveCertificateTask?
    ensures Step(r, e).kind == r.kind && Step(r, e).todo == r.todo && Step(r, e).state.pending.None?
  {
    match e {
      case Try(budget) => assert Execute(r.todo.task, false, r.state, budget) == Failed(r.state);
      case _ =>
    }
  }

  /** It happens: a new instance is provisioned, and its move is started again at once. */
  lemma AMoveGetsCaught() returns (s0: State, provisioning: seq<Event>)
    ensures New(s0)
    ensures var provisioned := Steps(Begin(s0, AlbProvision), provisioning);
            && provisioned.todo.Finished? && Steady(provisioned.state)
            && var r := Begin(Request(provisioned.state, AlbToDedicated, []), AlbToDedicated);
               && Admissible(r, PlanOf(provisioned.state, AlbToDedicated, []), Restart)
               && forall after :: RestartsEarly(Step(r, Restart), after) ==> Steps(Step(r, Restart), after).todo.Then?
  {
    hide New, InUseNow, Steady, RestartsEarly;
    s0 := Lifecycle.ANewInstance(AlbProvision);
    provisioning := Lifecycle.ProvisioningFinishes(s0, AlbProvision, []);
    Lifecycle.AtBegin(Begin(s0, AlbProvision));
    var s := Steps(Begin(s0, AlbProvision), provisioning).state;
    Lifecycle.Movable(s0, s, []);
    var r := Begin(Request(s, AlbToDedicated, []), AlbToDedicated);
    AtStart(s);
    Lifecycle.AtBegin(r);
    forall after | RestartsEarly(Step(r, Restart), after) ensures Steps(Step(r, Restart), after).todo.Then? {
      RestartedMoveNeverFinishes(s, [], [], after);
    }
  }

  lemma AtStart(s: State)
    requires Startable(s, AlbToDedicated, [])
    ensures var r := Begin(Request(s, AlbToDedicated, []), AlbToDedicated);
            && Admissible(r, PlanOf(s, AlbToDedicated, []), Restart)
            && r.todo.Then? && r.state.pending.Some?
  {
  }
}
