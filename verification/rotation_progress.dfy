/**
  A rotation is never stuck for good. While there are listeners to choose from, the next
  task succeeds when no call of it fails, so retries alone bring the run to its end; a
  rejected order needs one restart before them.
 */
module RotationProgress {
  import opened Wrappers
  import opened Records
  import opened Tasks
  import opened Pipelines
  import opened Frames
  import opened Rotation
  import opened PhaseOrder
  import opened RotationRuns
  import ProvisioningRuns

  /** What the tasks so far have made ready: how far the pending certificate has come,
      and whether the load balancer certificate is remembered. */
  datatype Ready = Ready(level: nat, stored: bool)

  function Next(m: Ready, t: Task): Ready {
    match t
    case GenerateKeyTask => m.(level := 1)
    case InitiateChallengesTask => m.(level := 2)
    case AnswerChallengesTask => m.(level := 3)
    case RetrieveCertificateTask => m.(level := 4)
    case UploadTask(_) => m.(level := 5)
    case AddCertificateToAlbTask => m.(level := 6)
    case CreateDistributionTask => m.(level := 6)
    case UpdateDistributionTask => m.(level := 6)
    case UpdateCertificateTask => m.(level := 6)
    case StoreAlbCertificateTask => m.(stored := true)
    case RemoveAlbCertificateDuringUpdateToCdnTask => m.(stored := false)
    case _ => m
  }

  predicate Wants(m: Ready, t: Task, toCdn: bool) {
    match t
    case CreateUserTask => false
    case GenerateKeyTask => m.level == 0
    case InitiateChallengesTask => m.level == 1
    case CreateTxtTask => m.level == 2
    case AnswerChallengesTask => m.level == 2
    case RetrieveCertificateTask => m.level == 3
    case UploadTask(_) => m.level == 4
    case AddCertificateToAlbTask => m.level == 5
    case CreateDistributionTask => m.level == 5
    case UpdateDistributionTask => m.level == 5
    case UpdateCertificateTask => m.level == 5
    case WaitForDistributionTask => m.level == 6 && toCdn
    case RemoveAlbCertificateDuringUpdateToCdnTask => m.stored && m.level == 6
    case CreateAliasTask => m.level == 6
    case DeletePreviousTask(_) => m.level == 6
    case _ => true
  }

  predicate Prepared(m: Ready, todo: Pipeline, toCdn: bool)
    decreases todo
  {
    todo.Finished? || (Wants(m, todo.task, toCdn) && Prepared(Next(m, todo.task), todo.rest, toCdn))
  }

  // ---- the invariant ----

  predicate RowIs(s: State, level: nat) {
    1 <= level <= 5 ==>
      && s.pending.Some? && s.pending.value in s.certificates
      && var row := s.certificates[s.pending.value];
      && (2 <= level <= 3 ==> row.order.Some?)
      && (level == 3 ==> AllAnswered(row.challenges))
      && (level == 4 ==> row.leaf)
      && (level == 5 ==> row.arn.Some? && row.arn.value in s.iam)
  }

  predicate Listed(listeners: seq<Listener>, attached: set<Listener>) {
    listeners != [] && forall l :: l in listeners ==> l in attached
  }

  /** An account, and listeners to choose from that exist. */
  predicate Available(s: State) {
    s.user.Some? && Listed(s.shared, s.attached.Keys) && Listed(s.dedicated, s.attached.Keys)
  }

  /** A pending certificate has its row, and if it was uploaded it is in IAM. */
  predicate PendingSound(s: State) {
    s.pending.Some? ==>
      && s.pending.value in s.certificates
      && (s.certificates[s.pending.value].arn.Some? ==> s.certificates[s.pending.value].arn.value in s.iam)
  }

  predicate Holds(s: State, m: Ready) {
    Available(s) && PendingSound(s) && RowIs(s, m.level) && (m.stored ==> s.albCertificate.Some?)
  }

  // ---- tasks keep what is ready ----

  /** Rows, IAM and configuration as they were. */
  predicate Kept(s: State, s': State) {
    && s'.certificates == s.certificates && s'.iam == s.iam && s'.pending == s.pending
    && s'.albCertificate == s.albCertificate && s'.user == s.user
    && s'.shared == s.shared && s'.dedicated == s.dedicated && s'.attached.Keys == s.attached.Keys
  }

  lemma KeptHolds(s: State, s': State, m: Ready)
    requires Holds(s, m) && Kept(s, s')
    ensures Holds(s', m)
  {
  }

  predicate LoopTask(t: Task) {
    t.CreateTxtTask? || t.WaitForChangesTask? || t.RemoveOldDnsTask? || t.CreateAliasTask?
  }

  lemma LoopTaskKeeps(t: Task, s: State, budget: nat)
    requires LoopTask(t)
    ensures Kept(s, Execute(t, false, s, budget).state)
  {
    match t {
      case CreateTxtTask =>
        if s.pending.Some? && s.pending.value in s.certificates {
          TxtFrame(s, s.certificates[s.pending.value].challenges, budget);
        }
      case WaitForChangesTask => WaitFrame(s, budget);
      case RemoveOldDnsTask =>
        if s.current.Some? && s.current.value in s.certificates {
          RemovalFrame(s, s.certificates[s.current.value].challenges);
        }
      case CreateAliasTask => AliasFrame(s, s.domains, budget);
    }
  }

  /** The next level is reached by an outcome that is ok, and only then. */
  ghost predicate Reaches(o: Outcome, m: Ready, t: Task) {
    Holds(o.state, if o.ok then Next(m, t) else m)
  }

  lemma KeyHolds(s: State, m: Ready, budget: nat)
    requires Holds(s, m) && m.level == 0
    ensures Reaches(GenerateKey(s, budget), m, GenerateKeyTask)
  {
  }

  lemma OrderHolds(s: State, m: Ready, budget: nat)
    requires Holds(s, m) && m.level == 1
    ensures Reaches(InitiateChallenges(s, budget), m, InitiateChallengesTask)
  {
  }

  /** Challenges before the i-th are answered. */
  lemma {:induction false} AnswersHold(s: State, m: Ready, i: nat, budget: nat)
    requires Holds(s, m) && m.level == 2 && i <= |s.certificates[s.pending.value].challenges|
    requires AllAnswered(s.certificates[s.pending.value].challenges[..i])
    ensures Reaches(AnswerFrom(s, s.pending.value, i, budget), m, AnswerChallengesTask)
    decreases |s.certificates[s.pending.value].challenges| - i
  {
    var challenges := s.certificates[s.pending.value].challenges;
    if i == |challenges| {
      assert challenges[..i] == challenges;
    } else if challenges[i].answered {
      OneMore(challenges, i);
      AnswersHold(s, m, i + 1, budget);
    } else if budget > 0 {
      var s' := AnswerOne(s, s.pending.value, i);
      assert Holds(s', m);
      var after := s'.certificates[s.pending.value].challenges;
      assert after[..i] == challenges[..i];
      OneMore(after, i);
      AnswersHold(s', m, i + 1, budget - 1);
    }
  }

  lemma OneMore(challenges: seq<Challenge>, i: nat)
    requires i < |challenges| && challenges[i].answered && AllAnswered(challenges[..i])
    ensures AllAnswered(challenges[..i + 1])
  {
    var before, after := challenges[..i], challenges[..i + 1];
    forall j | 0 <= j < |after| ensures after[j].answered {
      if j < i { assert before[j].answered; }
    }
  }

  lemma RetrieveHolds(s: State, m: Ready, budget: nat)
    requires Holds(s, m) && m.level == 3
    ensures Reaches(RetrieveCertificate(s, budget), m, RetrieveCertificateTask)
  {
  }

  lemma UploadHolds(s: State, m: Ready, p: Partition, budget: nat)
    requires Holds(s, m) && m.level == 4
    ensures Reaches(UploadServerCertificate(s, p, budget), m, UploadTask(p))
  {
  }

  lemma PromotionHolds(t: Task, s: State, m: Ready, budget: nat)
    requires Holds(s, m) && PromotingTask(t)
    requires t.CreateDistributionTask? ==> s.distribution.None?
    ensures Reaches(Execute(t, false, s, budget), m, t)
  {
  }

  predicate RowTask(t: Task) {
    || t.GenerateKeyTask? || t.InitiateChallengesTask? || t.AnswerChallengesTask? || t.RetrieveCertificateTask?
    || t.UploadTask?
  }

  lemma RowTaskHolds(t: Task, s: State, m: Ready, budget: nat)
    requires Holds(s, m) && Wants(m, t, false) && RowTask(t)
    ensures Reaches(Execute(t, false, s, budget), m, t)
  {
    match t {
      case GenerateKeyTask => KeyHolds(s, m, budget);
      case InitiateChallengesTask => OrderHolds(s, m, budget);
      case AnswerChallengesTask => AnswersHold(s, m, 0, budget);
      case RetrieveCertificateTask => RetrieveHolds(s, m, budget);
      case UploadTask(p) => UploadHolds(s, m, p, budget);
    }
  }

  predicate PromotingTask(t: Task) {
    || t.AddCertificateToAlbTask? || t.CreateDistributionTask? || t.UpdateDistributionTask? || t.UpdateCertificateTask?
  }

  lemma RetirementHolds(s: State, m: Ready, budget: nat)
    requires Holds(s, m) && m.level == 6
    ensures Reaches(RemoveAlbCertificateDuringUpdateToCdn(s, budget), m, RemoveAlbCertificateDuringUpdateToCdnTask)
  {
  }

  lemma DeleteHolds(s: State, m: Ready, p: Partition, budget: nat)
    requires Holds(s, m) && m.level == 6 && s.pending.None?
    ensures Reaches(DeletePreviousCertificates(s, p, budget), m, DeletePreviousTask(p))
  {
    DeletionFrame(s, p, Ascending(Others(s)), budget);
  }

  /** The other tasks move listeners about, or nothing the rotation is about. */
  lemma OtherTaskKeeps(t: Task, s: State, budget: nat)
    requires !LoopTask(t) && !RowTask(t) && !PromotingTask(t) && !t.CreateUserTask? && !t.StoreAlbCertificateTask?
    requires !t.RemoveAlbCertificateDuringUpdateToCdnTask? && !t.DeletePreviousTask?
    ensures Kept(s, Execute(t, false, s, budget).state) && forall m :: Next(m, t) == m
  {
    hide Lowest, Others, Ascending, Load;
  }

  /** What the rotation's own invariant says at the tasks that need it. */
  lemma RotationFacts(t: Task, s: State, ph: Phase, g: Plan, all: bool)
    requires InRotation(s, ph, g) && Allowed(ph, t, g, all)
    ensures s.current.Some?
    ensures t.CreateDistributionTask? ==> s.distribution.None?
    ensures HasPromoted(ph) ==> s.pending.None?
  {
  }

  lemma ExecuteHolds(t: Task, s: State, ph: Phase, g: Plan, all: bool, m: Ready, budget: nat)
    requires InRotation(s, ph, g) && Allowed(ph, t, g, all) && Holds(s, m) && Wants(m, t, g.toCdn)
    ensures Reaches(Execute(t, false, s, budget), m, t)
  {
    hide InRotation, Holds, Kept;
    RotationFacts(t, s, ph, g, all);
    if RowTask(t) {
      RowTaskHolds(t, s, m, budget);
    } else if PromotingTask(t) {
      PromotionHolds(t, s, m, budget);
    } else if t.DeletePreviousTask? {
      DeleteHolds(s, m, t.partition, budget);
    } else if t.RemoveAlbCertificateDuringUpdateToCdnTask? {
      RetirementHolds(s, m, budget);
    } else if t.StoreAlbCertificateTask? {
      StoreHolds(s, m);
    } else {
      if LoopTask(t) { LoopTaskKeeps(t, s, budget); } else { OtherTaskKeeps(t, s, budget); }
      KeptHolds(s, Execute(t, false, s, budget).state, m);
    }
  }

  lemma StoreHolds(s: State, m: Ready)
    requires Holds(s, m) && s.current.Some?
    ensures Reaches(StoreAlbCertificate(s), m, StoreAlbCertificateTask)
  {
  }

  // ---- each task succeeds when no call fails ----

  /** More external calls than any task makes. */
  function Enough(s: State): nat {
    var challenges := if s.pending.Some? && s.pending.value in s.certificates
    then |s.certificates[s.pending.value].challenges| else 0;
    |s.domains| + |s.changeIds| + challenges + 1
  }

  lemma IssuingFacts(s: State, ph: Phase, g: Plan)
    requires InRotation(s, ph, g) && ph.stage.Issuing?
    ensures s.current.Some? && s.current.value in s.certificates
    ensures s.pending.Some? && s.pending.value in s.certificates ==> Covers(s, s.pending.value, s.domains)
  {
  }

  lemma RowTaskSucceeds(t: Task, s: State, ph: Phase, g: Plan, all: bool, m: Ready)
    requires InRotation(s, ph, g) && Allowed(ph, t, g, all) && Holds(s, m) && Wants(m, t, g.toCdn) && RowTask(t)
    ensures Execute(t, false, s, Enough(s)).ok
  {
    hide InRotation, AnswerFrom, Listed;
    IssuingFacts(s, ph, g);
    match t {
      case AnswerChallengesTask => ProvisioningRuns.AnswersSucceed(s, s.pending.value, 0, Enough(s));
      case _ =>
    }
  }

  lemma LoopTaskSucceeds(t: Task, s: State, ph: Phase, g: Plan, all: bool, m: Ready)
    requires InRotation(s, ph, g) && Allowed(ph, t, g, all) && Holds(s, m) && Wants(m, t, g.toCdn) && LoopTask(t)
    ensures Execute(t, false, s, Enough(s)).ok
  {
    match t {
      case CreateTxtTask => ProvisioningRuns.TxtsSucceed(s, s.certificates[s.pending.value].challenges, Enough(s));
      case WaitForChangesTask => ProvisioningRuns.WaitSucceeds(s, Enough(s));
      case RemoveOldDnsTask =>
      case CreateAliasTask => ProvisioningRuns.AliasesSucceed(s, s.domains, Enough(s));
    }
  }

  /** The distribution a certificate is put on is there. */
  lemma PlaceIsThere(s: State, ph: Phase, g: Plan)
    requires InRotation(s, ph, g)
    ensures g.place.AtDistribution? ==> s.distribution.Some? && s.distribution.value in s.served
    ensures HasPromoted(ph) && g.toCdn ==> s.distribution.Some?
    ensures ph.stage.Selected? ==> s.listener.Some?
  {
  }

  lemma PendingIsUsable(s: State, m: Ready)
    requires Holds(s, m) && m.level == 5
    ensures Usable(s, s.pending)
  {
  }

  lemma PromotionSucceeds(t: Task, s: State, ph: Phase, g: Plan, all: bool, m: Ready)
    requires InRotation(s, ph, g) && Allowed(ph, t, g, all) && Holds(s, m) && Wants(m, t, g.toCdn) && PromotingTask(t)
    requires t.AddCertificateToAlbTask? ==> s.listener.Some? && s.listener.value in s.attached
    ensures Execute(t, false, s, Enough(s)).ok
  {
    hide InRotation, Holds, Usable;
    PlaceIsThere(s, ph, g);
    PendingIsUsable(s, m);
  }

  /** The listener and the certificate that a removal is about are there. */
  lemma RemovalFacts(t: Task, s: State, ph: Phase, g: Plan, all: bool)
    requires InRotation(s, ph, g) && Allowed(ph, t, g, all) && RemovingTask(t) && !t.DeletePreviousTask?
    ensures g.place.AtListener? && g.place.listener in s.attached
    ensures g.outgoing in s.certificates && s.certificates[g.outgoing].arn.Some? && s.current.Some?
    ensures !t.RemoveAlbCertificateDuringUpdateToCdnTask? ==> s.previous == Some(g.place.listener)
    ensures t.RemoveAlbCertificateDuringUpdateToCdnTask? ==> s.listener == Some(g.place.listener)
    ensures t.RemoveAlbCertificateDuringUpdateToCdnTask? && s.albCertificate.Some? ==>
              s.albCertificate.value == g.outgoing
    ensures t.RemoveFromPreviousAlbTask? && !g.reuse ==> Others(s) == {g.outgoing}
    ensures t.RemoveFromPreviousDuringUpdateToDedicatedTask? ==> s.current == Some(g.outgoing)
  {
    var arn := Own(GovCloud, g.outgoing);
    var p := PlaceNow(s).value;
    assert (g.place.listener, arn) in Spot(g.place, arn) + Spot(p, Own(PartitionAt(p), s.current.value));
  }

  lemma RemovalSucceeds(t: Task, s: State, ph: Phase, g: Plan, all: bool, m: Ready)
    requires InRotation(s, ph, g) && Allowed(ph, t, g, all) && Holds(s, m) && Wants(m, t, g.toCdn) && RemovingTask(t)
    requires t.RemoveFromPreviousAlbTask? ==> !g.reuse
    ensures Execute(t, false, s, Enough(s)).ok
  {
    hide InRotation, RowIs, Available, PendingSound;
    if t.DeletePreviousTask? {
      DeleteKeeps(s, ph, g, t.partition, Enough(s));
    } else {
      RemovalFacts(t, s, ph, g, all);
      if t.RemoveFromPreviousAlbTask? { OnlyOther(Others(s), g.outgoing); }
    }
  }

  /** The listener selected, before a promotion, is one that exists. */
  predicate Selected(s: State, ph: Phase) {
    ph.stage.Selected? ==> s.listener.Some? && s.listener.value in s.attached
  }

  lemma RestSucceeds(t: Task, s: State, ph: Phase, g: Plan, all: bool, m: Ready)
    requires InRotation(s, ph, g) && Allowed(ph, t, g, all) && Holds(s, m) && Wants(m, t, g.toCdn)
    requires !RowTask(t) && !LoopTask(t) && !PromotingTask(t) && !RemovingTask(t)
    requires t.WaitForDistributionTask? ==> s.distribution.Some?
    ensures Execute(t, false, s, Enough(s)).ok
  {
    hide InRotation, RowIs, PendingSound;
  }

  // ---- runs ----

  ghost predicate Going(r: Run, ph: Phase, g: Plan, all: bool, m: Ready) {
    && Running(r, ph, g, all)
    && Holds(r.state, m)
    && Selected(r.state, ph)
    && Prepared(m, r.todo, g.toCdn)
    && (m.level == 6 <==> HasPromoted(ph))
    && (Blockable(g) ==> NoRemoval(r.todo))
    && Continues(r.kind, g)
  }

  /** The order was rejected, and the retrieval finds no pending certificate: only a
      restart can go on from here. */
  ghost predicate Broken(r: Run, ph: Phase, g: Plan, all: bool) {
    && Running(r, ph, g, all)
    && ph.stage.Issuing? && r.state.pending.None?
    && r.todo.Then? && r.todo.task.RetrieveCertificateTask?
    && Available(r.state)
    && Continues(r.kind, g)
  }

  /** A certificate of a listener is promoted again: there is no other one to remove. */
  predicate Blockable(g: Plan) {
    g.reuse && g.place.AtListener?
  }

  predicate NoRemoval(todo: Pipeline)
    decreases todo
  {
    todo.Finished? || (!todo.task.RemoveFromPreviousAlbTask? && NoRemoval(todo.rest))
  }

  /** The chain that the scan starts instead is one that can be gone through; after a
      move to a dedicated load balancer it is not (see module Moves). */
  predicate Continues(kind: Kind, g: Plan) {
    if kind.AlbToDedicated? then Blockable(g)
    else !Blockable(g) && Prepared(StartOf(RestartKind(kind)), TasksOf(RestartKind(kind)), g.toCdn)
  }

  /** A move to a dedicated load balancer starts with its certificate uploaded. */
  function StartOf(kind: Kind): Ready {
    Ready(if kind.AlbToDedicated? then 5 else 0, false)
  }

  /** There are always dedicated listeners to choose from. */
  predicate Supplied(e: Event, attached: set<Listener>) {
    e.Churn? ==> Listed(e.open, attached)
  }

  lemma TaskSucceeds(r: Run, ph: Phase, g: Plan, all: bool, m: Ready)
    requires Going(r, ph, g, all, m) && r.todo.Then?
    ensures Execute(r.todo.task, false, r.state, Enough(r.state)).ok
  {
    var t, s := r.todo.task, r.state;
    hide InRotation, Holds, Execute;
    PlaceIsThere(s, ph, g);
    if RowTask(t) {
      RowTaskSucceeds(t, s, ph, g, all, m);
    } else if LoopTask(t) {
      LoopTaskSucceeds(t, s, ph, g, all, m);
    } else if PromotingTask(t) {
      PromotionSucceeds(t, s, ph, g, all, m);
    } else if RemovingTask(t) {
      RemovalSucceeds(t, s, ph, g, all, m);
    } else {
      RestSucceeds(t, s, ph, g, all, m);
    }
  }

  /** Select puts the instance on a listener of the list. */
  lemma SelectedFrom(s: State, listeners: seq<Listener>, budget: nat)
    requires Listed(listeners, s.attached.Keys)
    ensures var o := SelectFrom(s, listeners, false, budget);
            o.ok ==> o.state.listener.Some? && o.state.listener.value in o.state.attached
  {
  }

  lemma NotSelecting(ph: Phase, t: Task)
    requires !t.SelectAlbTask? && !t.SelectDedicatedAlbTask? && !ph.stage.Selected?
    ensures !Rotation.Next(ph, t).stage.Selected?
  {
  }

  lemma AddLeaves(s: State, budget: nat)
    ensures var o := AddCertificateToAlb(s, budget); !o.ok ==> o.state == s
  {
  }

  lemma StaysSelected(t: Task, s: State, ph: Phase, g: Plan, all: bool, budget: nat)
    requires Allowed(ph, t, g, all) && Available(s) && Selected(s, ph)
    ensures var o := Execute(t, false, s, budget);
            Selected(o.state, if o.ok then Rotation.Next(ph, t) else ph)
  {
    if t.SelectAlbTask? || t.SelectDedicatedAlbTask? {
      hide SelectFrom;
      SelectedFrom(s, s.shared, budget);
      SelectedFrom(s, s.dedicated, budget);
    } else if !ph.stage.Selected? {
      hide Execute, Rotation.Next;
      NotSelecting(ph, t);
    } else if t.AddCertificateToAlbTask? {
      hide AddCertificateToAlb;
      AddLeaves(s, budget);
    } else {
      SelectedIsInert(t, ph, g, all);
    }
  }

  lemma SelectedIsInert(t: Task, ph: Phase, g: Plan, all: bool)
    requires Allowed(ph, t, g, all) && ph.stage.Selected? && !t.AddCertificateToAlbTask?
    ensures InertTask(t)
  {
  }

  /** The level and the phase promote together. */
  lemma LevelsMatch(t: Task, ph: Phase, g: Plan, all: bool, m: Ready)
    requires Allowed(ph, t, g, all) && Wants(m, t, g.toCdn) && (m.level == 6 <==> HasPromoted(ph))
    ensures Next(m, t).level == 6 <==> HasPromoted(Rotation.Next(ph, t))
  {
  }

  lemma TryGoes(r: Run, ph: Phase, g: Plan, all: bool, m: Ready, budget: nat) returns (ph': Phase, m': Ready)
    requires Going(r, ph, g, all, m) && r.todo.Then?
    ensures Going(Step(r, Try(budget)), ph', g, all, m')
  {
    var t, s := r.todo.task, r.state;
    hide InRotation, RowIs, PendingSound, Available, Execute, Selected, Listed;
    var o := Execute(t, false, s, budget);
    ExecuteKeeps(t, s, ph, g, all, budget);
    ExecuteHolds(t, s, ph, g, all, m, budget);
    StaysSelected(t, s, ph, g, all, budget);
    LevelsMatch(t, ph, g, all, m);
    ph', m' := ph, m;
    if o.ok { ph', m' := Rotation.Next(ph, t), Next(m, t); }
  }

  lemma RestartGoes(r: Run, ph: Phase, g: Plan, all: bool, m: Ready) returns (ph': Phase, m': Ready)
    requires Going(r, ph, g, all, m) && Admissible(r, g, Restart) && !r.kind.AlbToDedicated?
    ensures Going(Step(r, Restart), ph', g, all, m')
  {
    hide InRotation, TasksOf, Safe, Prepared;
    ph', m' := ph, m;
    if r.todo.Then? && !r.kind.DedicatedToCdnWaf? {
      RestartKeeps(r.state, ph, g);
      AvailableNow(r.state, m);
      StartIsReady(r.state, RestartKind(r.kind));
      ph', m' := START, StartOf(RestartKind(r.kind));
    }
  }

  lemma ChurnHolds(s: State, m: Ready, ph: Phase, e: Event)
    requires Holds(s, m) && Selected(s, ph) && e.Churn? && Listed(e.open, s.attached.Keys)
    ensures var s' := ChurnListener(s, e.listener, e.foreign, e.open); Holds(s', m) && Selected(s', ph)
  {
    assert ChurnListener(s, e.listener, e.foreign, e.open).attached.Keys == s.attached.Keys;
  }

  lemma ChurnGoes(r: Run, ph: Phase, g: Plan, all: bool, m: Ready, e: Event)
    requires Going(r, ph, g, all, m) && Admissible(r, g, e) && e.Churn? && Supplied(e, r.state.attached.Keys)
    ensures Going(Step(r, e), ph, g, all, m)
  {
    hide Running, Holds, Selected, ChurnListener;
    ChurnStepKeeps(r, ph, g, all, e);
    ChurnHolds(r.state, m, ph, e);
  }

  /** A rejection that changes anything leaves no pending certificate. */
  lemma RejectionLeaves(s: State)
    ensures var s' := RejectOrder(s);
            s' == s.(pending := s'.pending, certificates := s'.certificates) && (s' == s || s'.pending.None?)
  {
  }

  /** It breaks the run; any other rejection changes nothing. */
  lemma RejectGoes(r: Run, ph: Phase, g: Plan, all: bool, m: Ready)
    requires Going(r, ph, g, all, m)
    ensures Step(r, Reject) == r || Broken(Step(r, Reject), ph, g, all)
  {
    hide InRotation, Holds, Prepared, RejectOrder;
    RejectStepKeeps(r, ph, g, all);
    RejectionLeaves(r.state);
    AvailableNow(r.state, m);
  }

  lemma AvailableNow(s: State, m: Ready)
    requires Holds(s, m)
    ensures Available(s) && PendingSound(s)
  {
  }

  lemma BrokenRestarts(r: Run, ph: Phase, g: Plan, all: bool)
    requires Broken(r, ph, g, all) && !r.kind.DedicatedToCdnWaf?
    ensures Restartable(r.state, g)
    ensures Going(Step(r, Restart), START, g, all, StartOf(RestartKind(r.kind)))
  {
    hide InRotation, TasksOf, Safe, Prepared;
    BrokenIsRestartable(r.state, ph, g);
    RestartKeeps(r.state, ph, g);
    StartIsReady(r.state, RestartKind(r.kind));
  }

  lemma BrokenIsRestartable(s: State, ph: Phase, g: Plan)
    requires InRotation(s, ph, g) && ph.stage.Issuing? && s.pending.None?
    ensures Restartable(s, g) && PendingSound(s) && !g.reuse
  {
  }

  /** Nothing is wanted at the start but an account and listeners. */
  lemma StartIsReady(s: State, kind: Kind)
    requires Available(s) && PendingSound(s) && !kind.AlbToDedicated?
    ensures Holds(s, StartOf(kind)) && Selected(s, START)
  {
  }

  /** Nothing but a restart changes a broken run's state for good. */
  lemma BrokenStays(r: Run, ph: Phase, g: Plan, all: bool, e: Event)
    requires Broken(r, ph, g, all) && Admissible(r, g, e) && Supplied(e, r.state.attached.Keys)
    requires e.Restart? ==> r.kind.DedicatedToCdnWaf?
    ensures Broken(Step(r, e), ph, g, all)
  {
    hide InRotation, Safe, Prepared;
    if e.Churn? {
      ChurnStepKeeps(r, ph, g, all, e);
      ChurnHolds(r.state, Ready(0, false), START, e);
    }
  }

  /** Where a run is: going on at a level, or broken by a rejection. */
  datatype Course = Level(m: Ready) | Rejected

  ghost predicate OnCourse(r: Run, ph: Phase, g: Plan, all: bool, c: Course) {
    match c
    case Level(m) => Going(r, ph, g, all, m)
    case Rejected => Broken(r, ph, g, all)
  }

  lemma LevelStep(r: Run, ph: Phase, g: Plan, all: bool, m: Ready, e: Event) returns (ph': Phase, c': Course)
    requires Going(r, ph, g, all, m) && Admissible(r, g, e) && Supplied(e, r.state.attached.Keys)
    requires r.kind.AlbToDedicated? ==> !e.Restart?
    ensures OnCourse(Step(r, e), ph', g, all, c')
    ensures !e.Reject? ==> c'.Level?
  {
    hide Going, Broken, Execute, RejectOrder;
    ph', c' := ph, Level(m);
    var m' := m;
    match e {
      case Try(budget) => if r.todo.Then? { ph', m' := TryGoes(r, ph, g, all, m, budget); }
      case Reject =>
        RejectGoes(r, ph, g, all, m);
        if Step(r, Reject) != r { c' := Rejected; }
      case Restart => ph', m' := RestartGoes(r, ph, g, all, m);
      case Churn(_, _, _) => ChurnGoes(r, ph, g, all, m, e);
    }
    if c'.Level? { c' := Level(m'); }
  }

  lemma CourseStep(r: Run, ph: Phase, g: Plan, all: bool, c: Course, e: Event) returns (ph': Phase, c': Course)
    requires OnCourse(r, ph, g, all, c) && Admissible(r, g, e) && Supplied(e, r.state.attached.Keys)
    requires r.kind.AlbToDedicated? ==> !e.Restart?
    ensures OnCourse(Step(r, e), ph', g, all, c')
    ensures c.Level? && !e.Reject? ==> c'.Level?
  {
    hide Going, Broken, Step;
    match c {
      case Level(m) => ph', c' := LevelStep(r, ph, g, all, m, e);
      case Rejected =>
        if e.Restart? && !r.kind.DedicatedToCdnWaf? {
          BrokenRestarts(r, ph, g, all);
          ph', c' := START, Level(StartOf(RestartKind(r.kind)));
        } else {
          BrokenStays(r, ph, g, all, e);
          ph', c' := ph, c;
        }
    }
  }

  predicate SuppliedRun(r: Run, events: seq<Event>)
    decreases |events|
  {
    events == [] || (Supplied(events[0], r.state.attached.Keys) && SuppliedRun(Step(r, events[0]), events[1..]))
  }

  lemma NeverTurnsIntoMove(r: Run, e: Event)
    ensures Step(r, e).kind.AlbToDedicated? ==> r.kind.AlbToDedicated?
  {
    hide Execute, RejectOrder, ChurnListener;
  }

  lemma {:induction false} RunGoes(r: Run, ph: Phase, g: Plan, all: bool, c: Course, events: seq<Event>)
    returns (ph': Phase, c': Course)
    requires OnCourse(r, ph, g, all, c) && AdmissibleRun(r, g, events) && SuppliedRun(r, events)
    requires r.kind.AlbToDedicated? ==> forall e :: e in events ==> !e.Restart?
    ensures OnCourse(Steps(r, events), ph', g, all, c')
    ensures c.Level? && (forall e :: e in events ==> !e.Reject?) ==> c'.Level?
    decreases |events|
  {
    hide OnCourse, Step, Admissible, Supplied;
    ph', c' := ph, c;
    if events != [] {
      NeverTurnsIntoMove(r, events[0]);
      var ph1, c1 := CourseStep(r, ph, g, all, c, events[0]);
      ph', c' := RunGoes(Step(r, events[0]), ph1, g, all, c1, events[1..]);
    }
  }

  lemma NextTry(r: Run, ph: Phase, g: Plan, all: bool, m: Ready)
    requires Going(r, ph, g, all, m) && r.todo.Then?
    ensures Step(r, Try(Enough(r.state))).todo == r.todo.rest
  {
    hide InRotation, Holds, Execute;
    TaskSucceeds(r, ph, g, all, m);
  }

  lemma {:induction false} Finishes(r: Run, ph: Phase, g: Plan, all: bool, m: Ready) returns (more: seq<Event>)
    requires Going(r, ph, g, all, m)
    ensures AdmissibleRun(r, g, more) && Steps(r, more).todo.Finished?
    ensures forall e :: e in more ==> e.Try?
    decreases r.todo
  {
    hide Going, Step;
    if r.todo.Finished? {
      more := [];
    } else {
      var e := Try(Enough(r.state));
      NextTry(r, ph, g, all, m);
      var ph1, m1 := TryGoes(r, ph, g, all, m, Enough(r.state));
      var rest := Finishes(Step(r, e), ph1, g, all, m1);
      more := [e] + rest;
      assert more[1..] == rest;
    }
  }

  // ---- the pipelines prepare what they want ----

  lemma Wanted(m: Ready, t: Task, rest: Pipeline, toCdn: bool)
    requires Wants(m, t, toCdn) && Prepared(Next(m, t), rest, toCdn)
    ensures Prepared(m, Then(t, rest), toCdn)
  {
  }

  lemma IssuePrepares(stored: bool, p: Partition, rest: Pipeline, toCdn: bool)
    requires Prepared(Ready(5, stored), rest, toCdn)
    ensures Prepared(Ready(0, stored), Issue(p, rest), toCdn)
  {
    hide Prepared;
    Wanted(Ready(4, stored), UploadTask(p), rest, toCdn);
    var p6 := Then(UploadTask(p), rest);
    Wanted(Ready(3, stored), RetrieveCertificateTask, p6, toCdn);
    var p5 := Then(RetrieveCertificateTask, p6);
    Wanted(Ready(2, stored), AnswerChallengesTask, p5, toCdn);
    var p4 := Then(AnswerChallengesTask, p5);
    Wanted(Ready(2, stored), WaitForChangesTask, p4, toCdn);
    Wanted(Ready(2, stored), CreateTxtTask, Then(WaitForChangesTask, p4), toCdn);
    var p2 := Then(CreateTxtTask, Then(WaitForChangesTask, p4));
    Wanted(Ready(1, stored), InitiateChallengesTask, p2, toCdn);
    Wanted(Ready(0, stored), GenerateKeyTask, Then(InitiateChallengesTask, p2), toCdn);
  }

  lemma ReissuePrepares(stored: bool, p: Partition, rest: Pipeline, toCdn: bool)
    requires Prepared(Ready(5, stored), rest, toCdn)
    ensures Prepared(Ready(0, stored), Reissue(p, rest), toCdn)
  {
    hide Prepared;
    Wanted(Ready(4, stored), UploadTask(p), rest, toCdn);
    var p6 := Then(UploadTask(p), rest);
    Wanted(Ready(3, stored), RetrieveCertificateTask, p6, toCdn);
    var p5 := Then(RetrieveCertificateTask, p6);
    Wanted(Ready(2, stored), AnswerChallengesTask, p5, toCdn);
    var p4 := Then(RemoveOldDnsTask, Then(AnswerChallengesTask, p5));
    Wanted(Ready(2, stored), RemoveOldDnsTask, Then(AnswerChallengesTask, p5), toCdn);
    Wanted(Ready(2, stored), WaitForChangesTask, p4, toCdn);
    Wanted(Ready(2, stored), CreateTxtTask, Then(WaitForChangesTask, p4), toCdn);
    var p2 := Then(CreateTxtTask, Then(WaitForChangesTask, p4));
    Wanted(Ready(1, stored), InitiateChallengesTask, p2, toCdn);
    Wanted(Ready(0, stored), GenerateKeyTask, Then(InitiateChallengesTask, p2), toCdn);
  }

  /** A task that wants nothing more than a promotion, and changes nothing of this. */
  predicate Late(t: Task, toCdn: bool) {
    && !RowTask(t) && !PromotingTask(t) && !t.CreateUserTask? && !t.CreateTxtTask?
    && !t.StoreAlbCertificateTask? && !t.RemoveAlbCertificateDuringUpdateToCdnTask?
    && (t.WaitForDistributionTask? ==> toCdn)
  }

  lemma LateWants(stored: bool, t: Task, toCdn: bool)
    requires Late(t, toCdn)
    ensures Wants(Ready(6, stored), t, toCdn) && Next(Ready(6, stored), t) == Ready(6, stored)
  {
  }

  predicate AllLate(todo: Pipeline, toCdn: bool)
    decreases todo
  {
    todo.Finished? || (Late(todo.task, toCdn) && AllLate(todo.rest, toCdn))
  }

  lemma {:induction false} LateIsPrepared(stored: bool, todo: Pipeline, toCdn: bool)
    requires AllLate(todo, toCdn)
    ensures Prepared(Ready(6, stored), todo, toCdn)
    decreases todo
  {
    if todo.Then? {
      LateWants(stored, todo.task, toCdn);
      LateIsPrepared(stored, todo.rest, toCdn);
    }
  }

  lemma OneMoreLate(t: Task, rest: Pipeline, toCdn: bool)
    requires Late(t, toCdn) && AllLate(rest, toCdn)
    ensures AllLate(Then(t, rest), toCdn)
  {
  }

  lemma PointDnsIsLate(rest: Pipeline, toCdn: bool)
    requires AllLate(rest, toCdn)
    ensures AllLate(PointDns(rest), toCdn) && AllLate(AlbWaf(PointDns(rest)), toCdn)
    ensures toCdn ==> AllLate(Then(WaitForDistributionTask, PointDns(rest)), toCdn)
  {
    hide AllLate;
    OneMoreLate(WaitForChangesTask, rest, toCdn);
    OneMoreLate(CreateAliasTask, Then(WaitForChangesTask, rest), toCdn);
    var p := PointDns(rest);
    OneMoreLate(AssociateWebAclTask, p, toCdn);
    OneMoreLate(PutWafLoggingTask, Then(AssociateWebAclTask, p), toCdn);
    OneMoreLate(CreateWebAclTask, Then(PutWafLoggingTask, Then(AssociateWebAclTask, p)), toCdn);
    if toCdn { OneMoreLate(WaitForDistributionTask, p, toCdn); }
  }

  lemma MonitorIsLate(rest: Pipeline, toCdn: bool)
    requires AllLate(rest, toCdn)
    ensures AllLate(Monitor(rest), toCdn) && AllLate(UpdateMonitoring(rest), toCdn)
  {
    hide AllLate;
    var p := Then(CreateHealthCheckAlarmsTask, Then(CreateDdosAlarmTask, rest));
    OneMoreLate(CreateDdosAlarmTask, rest, toCdn);
    OneMoreLate(CreateHealthCheckAlarmsTask, Then(CreateDdosAlarmTask, rest), toCdn);
    var q := Then(CreateNewHealthChecksTask, Then(AssociateHealthCheckTask, p));
    OneMoreLate(AssociateHealthCheckTask, p, toCdn);
    OneMoreLate(CreateNewHealthChecksTask, Then(AssociateHealthCheckTask, p), toCdn);
    OneMoreLate(SubscribeTopicTask, q, toCdn);
    OneMoreLate(CreateTopicTask, Then(SubscribeTopicTask, q), toCdn);
    UpdatesAreLate(p, toCdn);
    var u := CheckUpdates(rest);
    OneMoreLate(SubscribeTopicTask, u, toCdn);
    OneMoreLate(UnsubscribeTopicTask, Then(SubscribeTopicTask, u), toCdn);
    OneMoreLate(CreateTopicTask, Then(UnsubscribeTopicTask, Then(SubscribeTopicTask, u)), toCdn);
  }

  lemma UpdatesAreLate(p: Pipeline, toCdn: bool)
    requires AllLate(p, toCdn)
    ensures var q := Then(DeleteUnusedHealthChecksTask, Then(DeleteHealthCheckAlarmsTask, p));
            AllLate(Then(CreateNewHealthChecksTask, Then(UpdateAssociatedHealthCheckTask, q)), toCdn)
  {
    hide AllLate;
    OneMoreLate(DeleteHealthCheckAlarmsTask, p, toCdn);
    var q := Then(DeleteUnusedHealthChecksTask, Then(DeleteHealthCheckAlarmsTask, p));
    OneMoreLate(DeleteUnusedHealthChecksTask, Then(DeleteHealthCheckAlarmsTask, p), toCdn);
    OneMoreLate(UpdateAssociatedHealthCheckTask, q, toCdn);
    OneMoreLate(CreateNewHealthChecksTask, Then(UpdateAssociatedHealthCheckTask, q), toCdn);
  }

  lemma EndsAreLate(toCdn: bool)
    ensures AllLate(Then(ProvisionTask, Finished), toCdn) && AllLate(Then(UpdateCompleteTask, Finished), toCdn)
    ensures AllLate(CleanUpAlb(GovCloud), toCdn)
    ensures AllLate(Then(RemoveFromPreviousDuringUpdateToDedicatedTask, Then(ProvisionTask, Finished)), toCdn)
    ensures AllLate(Then(DeletePreviousTask(Commercial), Then(ProvisionTask, Finished)), toCdn)
  {
    var end := Then(ProvisionTask, Finished);
    OneMoreLate(ProvisionTask, Finished, toCdn);
    OneMoreLate(UpdateCompleteTask, Finished, toCdn);
    OneMoreLate(DeletePreviousTask(GovCloud), end, toCdn);
    OneMoreLate(DeletePreviousTask(Commercial), end, toCdn);
    OneMoreLate(RemoveFromPreviousAlbTask, Then(DeletePreviousTask(GovCloud), end), toCdn);
    OneMoreLate(RemoveFromPreviousDuringUpdateToDedicatedTask, end, toCdn);
  }

  /** A promoting task, or two with the selection before it. */
  lemma PromotedPrepares(t: Task, stored: bool, rest: Pipeline, toCdn: bool)
    requires AllLate(rest, toCdn) && PromotingTask(t)
    ensures Prepared(Ready(5, stored), Then(t, rest), toCdn)
    ensures Prepared(Ready(5, stored), ToAlb(rest), toCdn) && Prepared(Ready(5, stored), ToDedicatedAlb(rest), toCdn)
  {
    LateIsPrepared(stored, rest, toCdn);
    Wanted(Ready(5, stored), t, rest, toCdn);
    Wanted(Ready(5, stored), AddCertificateToAlbTask, rest, toCdn);
    Wanted(Ready(5, stored), SelectAlbTask, Then(AddCertificateToAlbTask, rest), toCdn);
    Wanted(Ready(5, stored), SelectDedicatedAlbTask, Then(AddCertificateToAlbTask, rest), toCdn);
  }

  predicate BehindAlb(kind: Kind) {
    kind.AlbUpdate? || kind.AlbRenewal? || kind.DedicatedUpdate? || kind.DedicatedRenewal? || kind.AlbToDedicated?
  }

  lemma AlbIsPrepared(kind: Kind)
    requires BehindAlb(kind)
    ensures Prepared(StartOf(kind), TasksOf(kind), false)
  {
    hide Prepared, AllLate;
    EndsAreLate(false);
    var p := PointDns(CleanUpAlb(GovCloud));
    PointDnsIsLate(CleanUpAlb(GovCloud), false);
    PromotedPrepares(AddCertificateToAlbTask, false, p, false);
    PromotedPrepares(AddCertificateToAlbTask, false, AlbWaf(p), false);
    match kind {
      case AlbUpdate => ReissuePrepares(false, GovCloud, ToAlb(p), false);
      case AlbRenewal => IssuePrepares(false, GovCloud, ToAlb(p), false);
      case DedicatedUpdate => ReissuePrepares(false, GovCloud, ToDedicatedAlb(AlbWaf(p)), false);
      case DedicatedRenewal => IssuePrepares(false, GovCloud, ToDedicatedAlb(p), false);
      case AlbToDedicated =>
        var q := Then(RemoveFromPreviousDuringUpdateToDedicatedTask, Then(ProvisionTask, Finished));
        PointDnsIsLate(q, false);
        PromotedPrepares(AddCertificateToAlbTask, false, AlbWaf(PointDns(q)), false);
    }
  }

  lemma RedistributePrepares(rest: Pipeline)
    requires AllLate(rest, true)
    ensures Prepared(Ready(5, false), Redistribute(rest), true)
    ensures Prepared(Ready(5, false), Then(CreateWebAclTask, Redistribute(rest)), true)
    ensures Prepared(Ready(5, false), Then(CreateWebAclTask, Then(PutWafLoggingTask, Redistribute(rest))), true)
  {
    hide AllLate, Prepared;
    OneMoreLate(DeletePreviousTask(Commercial), rest, true);
    PointDnsIsLate(Then(DeletePreviousTask(Commercial), rest), true);
    var p := Redistribute(rest);
    PromotedPrepares(UpdateDistributionTask, false, p.rest, true);
    WafPrepares(false, p, true);
  }

  lemma WafPrepares(stored: bool, rest: Pipeline, toCdn: bool)
    requires Prepared(Ready(5, stored), rest, toCdn)
    ensures Prepared(Ready(5, stored), Then(CreateWebAclTask, rest), toCdn)
    ensures Prepared(Ready(5, stored), Then(CreateWebAclTask, Then(PutWafLoggingTask, rest)), toCdn)
  {
    hide Prepared;
    Wanted(Ready(5, stored), CreateWebAclTask, rest, toCdn);
    Wanted(Ready(5, stored), PutWafLoggingTask, rest, toCdn);
    Wanted(Ready(5, stored), CreateWebAclTask, Then(PutWafLoggingTask, rest), toCdn);
  }

  lemma CdnIsPrepared(kind: Kind)
    requires FromDistribution(kind)
    ensures Prepared(StartOf(kind), TasksOf(kind), true)
  {
    hide Prepared, AllLate;
    EndsAreLate(true);
    var end := Then(UpdateCompleteTask, Finished);
    MonitorIsLate(end, true);
    match kind {
      case CdnUpdate =>
        RedistributePrepares(end);
        ReissuePrepares(false, Commercial, Redistribute(end), true);
      case CdnRenewal =>
        var p := Then(DeletePreviousTask(Commercial), Then(ProvisionTask, Finished));
        PromotedPrepares(UpdateCertificateTask, false, p, true);
        IssuePrepares(false, Commercial, Then(UpdateCertificateTask, p), true);
      case CdnWafUpdate =>
        var p := Redistribute(UpdateMonitoring(end));
        RedistributePrepares(UpdateMonitoring(end));
        ReissuePrepares(false, Commercial, Then(CreateWebAclTask, Then(PutWafLoggingTask, p)), true);
      case CdnToCdnWaf =>
        RedistributePrepares(Monitor(end));
        IssuePrepares(false, Commercial, Then(CreateWebAclTask, Redistribute(Monitor(end))), true);
    }
  }

  /** The move to a distribution wants the remembered certificate at the end. */
  lemma RetireIsPrepared(kind: Kind)
    requires kind.DedicatedToCdnWaf?
    ensures Prepared(Ready(6, true), RetireAlb(GovCloud), true)
  {
    hide AllLate, Prepared;
    var p := Then(ChangeToCdnDedicatedWafTask, Then(UpdateCompleteTask, Finished));
    EndsAreLate(true);
    OneMoreLate(ChangeToCdnDedicatedWafTask, Then(UpdateCompleteTask, Finished), true);
    OneMoreLate(DeletePreviousTask(GovCloud), p, true);
    LateIsPrepared(false, Then(DeletePreviousTask(GovCloud), p), true);
    Wanted(Ready(6, true), RemoveAlbCertificateDuringUpdateToCdnTask, Then(DeletePreviousTask(GovCloud), p), true);
  }

  /** A late task before a prepared rest. */
  lemma LateThen(t: Task, rest: Pipeline)
    requires Late(t, true) && Prepared(Ready(6, true), rest, true)
    ensures Prepared(Ready(6, true), Then(t, rest), true)
  {
    LateWants(true, t, true);
  }

  lemma MonitorPrepares(rest: Pipeline)
    requires Prepared(Ready(6, true), rest, true)
    ensures Prepared(Ready(6, true), Monitor(rest), true)
  {
    hide Prepared;
    LateThen(CreateDdosAlarmTask, rest);
    LateThen(CreateHealthCheckAlarmsTask, Then(CreateDdosAlarmTask, rest));
    var p := Then(CreateHealthCheckAlarmsTask, Then(CreateDdosAlarmTask, rest));
    LateThen(AssociateHealthCheckTask, p);
    LateThen(CreateNewHealthChecksTask, Then(AssociateHealthCheckTask, p));
    var q := Then(CreateNewHealthChecksTask, Then(AssociateHealthCheckTask, p));
    LateThen(SubscribeTopicTask, q);
    LateThen(CreateTopicTask, Then(SubscribeTopicTask, q));
  }

  lemma NewDistributionPrepares(rest: Pipeline)
    requires Prepared(Ready(6, true), rest, true)
    ensures Prepared(Ready(5, true), ToNewDistribution(rest), true)
  {
    hide Prepared;
    LateThen(WaitForChangesTask, rest);
    LateThen(CreateAliasTask, Then(WaitForChangesTask, rest));
    LateThen(WaitForDistributionTask, PointDns(rest));
    var p := Then(WaitForDistributionTask, PointDns(rest));
    Wanted(Ready(5, true), CreateDistributionTask, p, true);
    WafPrepares(true, Then(CreateDistributionTask, p), true);
  }

  lemma MoveIsPrepared(kind: Kind)
    requires kind.DedicatedToCdnWaf?
    ensures Prepared(StartOf(kind), TasksOf(kind), true)
  {
    hide Prepared;
    RetireIsPrepared(kind);
    MonitorPrepares(RetireAlb(GovCloud));
    var p := ToNewDistribution(Monitor(RetireAlb(GovCloud)));
    NewDistributionPrepares(Monitor(RetireAlb(GovCloud)));
    ReissuePrepares(true, Commercial, p, true);
    Wanted(Ready(0, false), StoreAlbCertificateTask, Reissue(Commercial, p), true);
  }

  lemma PipelineIsPrepared(kind: Kind, g: Plan)
    requires Fits(kind, g)
    ensures Prepared(StartOf(kind), TasksOf(kind), g.toCdn)
  {
    hide Prepared;
    if BehindAlb(kind) {
      AlbIsPrepared(kind);
    } else if kind.DedicatedToCdnWaf? {
      MoveIsPrepared(kind);
    } else {
      CdnIsPrepared(kind);
    }
  }

  // ---- main result ----

  lemma StartHolds(s: State, kind: Kind, domains: seq<string>)
    requires Startable(s, kind, domains) && Available(s)
    ensures Holds(Request(s, kind, domains), StartOf(kind))
  {
  }

  lemma StartFits(s: State, kind: Kind, domains: seq<string>)
    requires Startable(s, kind, domains)
    ensures Located(s)
    ensures Fits(kind, PlanOf(s, kind, domains))
    ensures kind.AlbToDedicated? ==> Blockable(PlanOf(s, kind, domains))
  {
  }

  lemma StartContinues(kind: Kind, g: Plan)
    requires Fits(kind, g) && (kind.AlbToDedicated? ==> Blockable(g))
    ensures (Blockable(g) ==> NoRemoval(TasksOf(kind))) && Continues(kind, g)
  {
    hide Prepared, TasksOf;
    if kind.AlbToDedicated? {
      MoveRemovesNone(kind);
    } else {
      RestartFits(kind, g);
      PipelineIsPrepared(RestartKind(kind), g);
    }
  }

  lemma StartGoes(s: State, kind: Kind, domains: seq<string>)
    requires Startable(s, kind, domains) && Available(s)
    ensures Going(Begin(Request(s, kind, domains), kind), START, PlanOf(s, kind, domains), Renewal(kind), StartOf(kind))
  {
    hide Startable, Request, PlanOf, Prepared, TasksOf, Running, Holds, Fits, Continues, NoRemoval;
    StartHolds(s, kind, domains);
    StartRun(s, kind, domains);
    StartFits(s, kind, domains);
    StartContinues(kind, PlanOf(s, kind, domains));
    PipelineIsPrepared(kind, PlanOf(s, kind, domains));
  }

  lemma RestartFits(kind: Kind, g: Plan)
    requires Fits(kind, g) && !kind.AlbToDedicated?
    ensures Fits(RestartKind(kind), g) && !Blockable(g)
  {
  }

  lemma MoveRemovesNone(kind: Kind)
    requires kind.AlbToDedicated?
    ensures NoRemoval(TasksOf(kind))
  {
    var end := Then(RemoveFromPreviousDuringUpdateToDedicatedTask, Then(ProvisionTask, Finished));
    assert NoRemoval(PointDns(end));
    assert NoRemoval(AlbWaf(PointDns(end)));
  }

  /** From anywhere on course: tries, after a restart if an order was rejected. */
  lemma FinishesOnCourse(r: Run, ph: Phase, g: Plan, all: bool, c: Course) returns (more: seq<Event>)
    requires OnCourse(r, ph, g, all, c) && (c.Rejected? ==> !r.kind.DedicatedToCdnWaf?)
    ensures AdmissibleRun(r, g, more) && Steps(r, more).todo.Finished? && Steady(Steps(r, more).state)
    ensures forall i :: 0 <= i < |more| ==> more[i].Try? || (i == 0 && c.Rejected? && more[i].Restart?)
  {
    match c {
      case Level(m) =>
        hide Going, Steady;
        more := Finishes(r, ph, g, all, m);
        EndIsSteady(r, ph, g, all, m, more);
      case Rejected =>
        hide Going, Steady, Step, Prepared, Running;
        BrokenRestarts(r, ph, g, all);
        var r1 := Step(r, Restart);
        var m := StartOf(RestartKind(r.kind));
        var rest := Finishes(r1, START, g, all, m);
        EndIsSteady(r1, START, g, all, m, rest);
        more := [Restart] + rest;
        assert more[1..] == rest;
    }
  }

  /**
    Never stuck. Whatever an admissible run has gone through, tries bring it to its end,
    where the instance is steady again: tries alone when no order was rejected, and
    after at most one restart otherwise. Two moves fare worse: from a load balancer to a
    distribution a rejected order cannot be restarted, and to a dedicated load balancer a
    restart cannot be gone through.
   */
  lemma RotationCanFinish(s: State, kind: Kind, domains: seq<string>, events: seq<Event>) returns (more: seq<Event>)
    requires Startable(s, kind, domains) && Available(s)
    requires AdmissibleRun(Begin(Request(s, kind, domains), kind), PlanOf(s, kind, domains), events)
    requires SuppliedRun(Begin(Request(s, kind, domains), kind), events)
    requires kind.DedicatedToCdnWaf? ==> forall e :: e in events ==> !e.Reject?
    requires kind.AlbToDedicated? ==> forall e :: e in events ==> !e.Restart?
    ensures var r := Steps(Begin(Request(s, kind, domains), kind), events);
            && AdmissibleRun(r, PlanOf(s, kind, domains), more)
            && Steps(r, more).todo.Finished? && Steady(Steps(r, more).state)
    ensures forall i :: 0 <= i < |more| ==> more[i].Try? || (i == 0 && more[i].Restart?)
    ensures (forall e :: e in events ==> !e.Reject?) ==> forall i :: 0 <= i < |more| ==> more[i].Try?
  {
    var g := PlanOf(s, kind, domains);
    var r0 := Begin(Request(s, kind, domains), kind);
    hide Going, Broken, Steady, Available;
    StartGoes(s, kind, domains);
    var ph, c := RunGoes(r0, START, g, Renewal(kind), Level(StartOf(kind)), events);
    KindStays(r0, events);
    more := FinishesOnCourse(Steps(r0, events), ph, g, Renewal(kind), c);
  }

  lemma EndIsSteady(r: Run, ph: Phase, g: Plan, all: bool, m: Ready, more: seq<Event>)
    requires Going(r, ph, g, all, m) && AdmissibleRun(r, g, more) && Steps(r, more).todo.Finished?
    ensures Steady(Steps(r, more).state)
  {
    hide InRotation, Safe, Steady;
    var ph' := RunKeeps(r, ph, g, all, more);
    FinishedIsSteady(Steps(r, more), ph', g, all);
  }
}
