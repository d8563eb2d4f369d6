/**
  What a restart costs a renewal behind a load balancer.

  Selecting a load balancer forgets the previous one, so a restart between the
  selection and the promotion remembers the wrong listener when the selection had
  changed it: the old certificate stays attached where it was, IAM refuses to
  delete it, and the run never finishes, although nothing goes down. When the
  selection had kept the listener, the restart is harmless.
 */
module Restarts {
  import opened Wrappers
  import opened Records
  import opened Tasks
  import opened Pipelines
  import opened Frames
  import opened Rotation
  import opened PhaseOrder
  import opened RotationRuns

  /** The old certificate is attached to a listener that the instance forgot. */
  ghost predicate Stranded(s: State, ph: Phase, g: Plan) {
    && g.place.AtListener?
    && g.outgoing in s.certificates
    && s.certificates[g.outgoing].leaf
    && s.certificates[g.outgoing].arn == Some(Own(GovCloud, g.outgoing))
    && Own(GovCloud, g.outgoing) in s.iam
    && g.place.listener in s.attached && Own(GovCloud, g.outgoing) in s.attached[g.place.listener]
    && (forall id :: id in s.certificates ==> id < s.nextId)
    && s.pending != Some(g.outgoing)
    && s.albCertificate.None? && s.distribution.None?
    && !ph.cleaned
    && (if HasPromoted(ph) then s.current.Some? && s.current != Some(g.outgoing) else s.current == Some(g.outgoing))
    && (if ph.stage.Issuing? then s.listener.Some? && s.listener != Some(g.place.listener)
        else s.previous != Some(g.place.listener))
  }

  /** A rotation behind a load balancer that issues a new certificate. */
  predicate AlbRotation(kind: Kind) {
    kind.AlbUpdate? || kind.AlbRenewal? || kind.DedicatedUpdate? || kind.DedicatedRenewal?
  }

  predicate AtAlb(g: Plan) {
    g.place.AtListener? && !g.toCdn && !g.reuse
  }

  // ---- no task brings it back ----

  ghost predicate StaysStranded(o: Outcome, ph: Phase, t: Task, g: Plan) {
    Stranded(o.state, if o.ok then Next(ph, t) else ph, g)
  }

  /** Only rows of other certificates, DNS, or the account differ. */
  ghost predicate Aside(s: State, s': State, outgoing: nat) {
    && outgoing in s.certificates && outgoing in s'.certificates
    && s'.certificates[outgoing].arn == s.certificates[outgoing].arn
    && (s.certificates[outgoing].leaf ==> s'.certificates[outgoing].leaf)
    && s.iam <= s'.iam && s'.attached == s.attached
    && (forall id :: id in s'.certificates ==> id in s.certificates || s.nextId <= id < s'.nextId)
    && s.nextId <= s'.nextId
    && (s'.pending == s.pending || s'.pending.None? || s'.pending.value >= s.nextId)
    && s'.albCertificate == s.albCertificate && s'.distribution == s.distribution
    && s'.current == s.current && s'.listener == s.listener && s'.previous == s.previous
  }

  lemma AsideStays(s: State, s': State, ph: Phase, g: Plan)
    requires Stranded(s, ph, g) && Aside(s, s', g.outgoing)
    ensures Stranded(s', ph, g)
  {
  }

  lemma AsideAgain(s: State, s1: State, s2: State, outgoing: nat)
    requires Aside(s, s1, outgoing) && Aside(s1, s2, outgoing)
    ensures Aside(s, s2, outgoing)
  {
  }

  lemma {:induction false} AnswersAside(s: State, id: nat, i: nat, budget: nat, outgoing: nat)
    requires id in s.certificates && i <= |s.certificates[id].challenges| && outgoing in s.certificates
    ensures Aside(s, AnswerFrom(s, id, i, budget).state, outgoing)
    decreases |s.certificates[id].challenges| - i
  {
    if i < |s.certificates[id].challenges| {
      if s.certificates[id].challenges[i].answered {
        AnswersAside(s, id, i + 1, budget, outgoing);
      } else if budget > 0 {
        var s' := AnswerOne(s, id, i);
        assert Aside(s, s', outgoing);
        hide Aside;
        AnswersAside(s', id, i + 1, budget - 1, outgoing);
        AsideAgain(s, s', AnswerFrom(s', id, i + 1, budget - 1).state, outgoing);
      }
    }
  }

  predicate RowTask(t: Task) {
    || t.CreateUserTask? || t.GenerateKeyTask?
    || t.InitiateChallengesTask? || t.RetrieveCertificateTask? || t.UploadTask?
  }

  lemma NewRowAside(s: State, budget: nat, outgoing: nat)
    requires outgoing in s.certificates && outgoing < s.nextId
    ensures Aside(s, GenerateKey(s, budget).state, outgoing) && Aside(s, CreateUser(s, budget).state, outgoing)
  {
  }

  lemma OrderAside(s: State, budget: nat, outgoing: nat)
    requires outgoing in s.certificates && s.pending != Some(outgoing)
    ensures Aside(s, InitiateChallenges(s, budget).state, outgoing)
  {
    hide NewChallenges;
  }

  lemma RetrieveAside(s: State, budget: nat, outgoing: nat)
    requires outgoing in s.certificates && s.pending != Some(outgoing)
    ensures Aside(s, RetrieveCertificate(s, budget).state, outgoing)
  {
    hide AllAnswered;
  }

  lemma UploadAside(s: State, p: Partition, budget: nat, outgoing: nat)
    requires outgoing in s.certificates && s.pending != Some(outgoing)
    ensures Aside(s, UploadServerCertificate(s, p, budget).state, outgoing)
  {
  }

  lemma RowTaskAside(t: Task, s: State, budget: nat, outgoing: nat)
    requires RowTask(t) && outgoing in s.certificates && outgoing < s.nextId && s.pending != Some(outgoing)
    ensures Aside(s, Execute(t, false, s, budget).state, outgoing)
  {
    hide Aside;
    match t {
      case CreateUserTask => NewRowAside(s, budget, outgoing);
      case GenerateKeyTask => NewRowAside(s, budget, outgoing);
      case InitiateChallengesTask => OrderAside(s, budget, outgoing);
      case RetrieveCertificateTask => RetrieveAside(s, budget, outgoing);
      case UploadTask(p) => UploadAside(s, p, budget, outgoing);
    }
  }

  predicate LoopTask(t: Task) {
    || t.CreateTxtTask? || t.WaitForChangesTask? || t.RemoveOldDnsTask? || t.CreateAliasTask?
    || t.AnswerChallengesTask?
  }

  lemma LoopTaskAside(t: Task, s: State, budget: nat, outgoing: nat)
    requires LoopTask(t) && outgoing in s.certificates
    ensures Aside(s, Execute(t, false, s, budget).state, outgoing)
  {
    match t {
      case CreateTxtTask =>
        if s.pending.Some? && s.pending.value in s.certificates {
          TxtFrame(s, s.certificates[s.pending.value].challenges, budget);
        }
      case WaitForChangesTask => WaitFrame(s, budget);
      case RemoveOldDnsTask =>
        if s.current.Some? && s.current.value in s.certificates {
          RemovalFrame(s, s.certificates[s.current.value].challenges);
        }
      case CreateAliasTask => AliasFrame(s, s.domains, budget);
      case AnswerChallengesTask =>
        if s.pending.Some? && s.pending.value in s.certificates {
          AnswersAside(s, s.pending.value, 0, budget, outgoing);
        }
    }
  }

  lemma SelectStays(s: State, listeners: seq<Listener>, ph: Phase, g: Plan, budget: nat)
    requires Stranded(s, ph, g) && ph.stage.Issuing?
    ensures var o := SelectFrom(s, listeners, false, budget);
            Stranded(o.state, if o.ok then ph.(stage := Selected) else ph, g)
  {
  }

  lemma AddStays(s: State, ph: Phase, g: Plan, budget: nat)
    requires Stranded(s, ph, g) && ph.stage.Selected?
    ensures StaysStranded(AddCertificateToAlb(s, budget), ph, AddCertificateToAlbTask, g)
  {
  }

  /** The old certificate is taken off the wrong listener. */
  lemma RemoveStays(s: State, ph: Phase, g: Plan, budget: nat)
    requires Stranded(s, ph, g) && ph.stage.Synced?
    ensures StaysStranded(RemoveCertificateFromPreviousAlb(s, budget), ph, RemoveFromPreviousAlbTask, g)
  {
    hide Others, Ascending;
  }

  /** IAM refuses to delete a certificate that is still attached. */
  lemma {:induction false} DeletionFails(s: State, todo: seq<nat>, budget: nat, g: Plan)
    requires forall id :: id in todo ==> id in s.certificates
    requires g.place.AtListener? && g.outgoing in todo && Own(GovCloud, g.outgoing) in s.iam
    requires g.place.listener in s.attached && Own(GovCloud, g.outgoing) in s.attached[g.place.listener]
    ensures var o := DeleteFromIam(s, GovCloud, todo, budget);
            !o.ok && o.state == s.(iam := o.state.iam) && Own(GovCloud, g.outgoing) in o.state.iam
    decreases |todo|
  {
    if budget > 0 && s.certificates[todo[0]].arn.Some? {
      var arn := Own(GovCloud, todo[0]);
      if todo[0] == g.outgoing {
        assert InUse(s, arn);
      } else if !(arn in s.iam && InUse(s, arn)) {
        DeletionFails(s.(iam := s.iam - {arn}), todo[1..], budget - 1, g);
      }
    }
  }

  lemma DeleteStays(s: State, ph: Phase, g: Plan, budget: nat)
    requires Stranded(s, ph, g) && HasPromoted(ph)
    ensures var o := DeletePreviousCertificates(s, GovCloud, budget); !o.ok && Stranded(o.state, ph, g)
  {
    assert g.outgoing in Ascending(Others(s));
    DeletionFails(s, Ascending(Others(s)), budget, g);
  }

  predicate PlaceTask(t: Task) {
    || t.SelectAlbTask? || t.SelectDedicatedAlbTask? || t.AddCertificateToAlbTask? || t.RemoveFromPreviousAlbTask?
    || t.DeletePreviousTask?
  }

  lemma PlaceTaskStays(t: Task, s: State, ph: Phase, g: Plan, budget: nat)
    requires Stranded(s, ph, g) && Allowed(ph, t, g, true) && AtAlb(g) && PlaceTask(t)
    ensures StaysStranded(Execute(t, false, s, budget), ph, t, g)
  {
    hide Stranded;
    match t {
      case SelectAlbTask => SelectStays(s, s.shared, ph, g, budget);
      case SelectDedicatedAlbTask => SelectStays(s, s.dedicated, ph, g, budget);
      case AddCertificateToAlbTask => AddStays(s, ph, g, budget);
      case RemoveFromPreviousAlbTask => RemoveStays(s, ph, g, budget);
      case DeletePreviousTask(_) => DeleteStays(s, ph, g, budget);
    }
  }

  lemma StrandedFacts(s: State, ph: Phase, g: Plan)
    requires Stranded(s, ph, g)
    ensures g.outgoing in s.certificates && g.outgoing < s.nextId && s.pending != Some(g.outgoing)
  {
  }

  /** Waiting or pointing DNS moves the phase among those after a promotion. */
  lemma PhaseStays(s: State, ph: Phase, t: Task, g: Plan)
    requires Stranded(s, ph, g) && Allowed(ph, t, g, true) && AtAlb(g) && !PlaceTask(t)
    ensures Stranded(s, Next(ph, t), g)
  {
  }

  lemma OtherTaskStays(t: Task, s: State, ph: Phase, g: Plan, budget: nat)
    requires Stranded(s, ph, g) && Allowed(ph, t, g, true) && AtAlb(g)
    requires !PlaceTask(t) && !RowTask(t) && !LoopTask(t)
    ensures Execute(t, false, s, budget).state == s
  {
  }

  lemma ExecuteStays(t: Task, s: State, ph: Phase, g: Plan, budget: nat)
    requires Stranded(s, ph, g) && Allowed(ph, t, g, true) && AtAlb(g)
    ensures StaysStranded(Execute(t, false, s, budget), ph, t, g)
  {
    hide Stranded, Execute, Aside;
    if PlaceTask(t) {
      PlaceTaskStays(t, s, ph, g, budget);
    } else {
      var s' := Execute(t, false, s, budget).state;
      StrandedFacts(s, ph, g);
      if RowTask(t) {
        RowTaskAside(t, s, budget, g.outgoing);
        AsideStays(s, s', ph, g);
      } else if LoopTask(t) {
        LoopTaskAside(t, s, budget, g.outgoing);
        AsideStays(s, s', ph, g);
      } else {
        OtherTaskStays(t, s, ph, g, budget);
      }
      PhaseStays(s', ph, t, g);
    }
  }

  // ---- whole runs ----

  ghost predicate StrandedRun(r: Run, ph: Phase, g: Plan) {
    Stranded(r.state, ph, g) && AtAlb(g) && AlbRotation(r.kind) && Safe(ph, r.todo, g, true)
  }

  lemma RejectStays(s: State, ph: Phase, g: Plan)
    requires Stranded(s, ph, g)
    ensures Stranded(RejectOrder(s), ph, g)
  {
  }

  lemma ChurnStays(s: State, ph: Phase, g: Plan, e: Event)
    requires Stranded(s, ph, g) && e.Churn?
    ensures Stranded(ChurnListener(s, e.listener, e.foreign, e.open), ph, g)
  {
  }

  lemma StepStays(r: Run, ph: Phase, g: Plan, e: Event) returns (ph': Phase)
    requires StrandedRun(r, ph, g) && !e.Restart?
    ensures StrandedRun(Step(r, e), ph', g)
  {
    hide Stranded, Execute, RejectOrder, ChurnListener;
    ph' := ph;
    match e {
      case Try(budget) =>
        if r.todo.Then? {
          ExecuteStays(r.todo.task, r.state, ph, g, budget);
          if Execute(r.todo.task, false, r.state, budget).ok { ph' := Next(ph, r.todo.task); }
        }
      case Reject => RejectStays(r.state, ph, g);
      case Churn(_, _, _) => ChurnStays(r.state, ph, g, e);
    }
  }

  lemma {:induction false} RunStays(r: Run, ph: Phase, g: Plan, events: seq<Event>) returns (ph': Phase)
    requires StrandedRun(r, ph, g) && forall e :: e in events ==> !e.Restart?
    ensures StrandedRun(Steps(r, events), ph', g)
    decreases |events|
  {
    hide StrandedRun, Step;
    ph' := ph;
    if events != [] {
      var ph1 := StepStays(r, ph, g, events[0]);
      ph' := RunStays(Step(r, events[0]), ph1, g, events[1..]);
    }
  }

  lemma RestartStrands(s: State, g: Plan)
    requires InRotation(s, Phase(Selected, false, false), g) && AtAlb(g)
    requires s.listener != Some(g.place.listener)
    ensures Stranded(s, START, g)
  {
    var arn := Own(GovCloud, g.outgoing);
    assert (g.place.listener, arn) in Spot(g.place, arn);
  }

  lemma AllPipelines(kind: Kind, g: Plan)
    requires AlbRotation(kind) && AtAlb(g)
    ensures Safe(START, TasksOf(kind), g, true)
  {
    AlbPipelinesAreSafe(g, true);
    hide Safe;
    match kind {
      case AlbUpdate =>
      case AlbRenewal =>
      case DedicatedUpdate =>
      case DedicatedRenewal =>
    }
  }

  lemma RestartedStays(r: Run, g: Plan, events: seq<Event>)
    requires InRotation(r.state, Phase(Selected, false, false), g) && AtAlb(g) && AlbRotation(r.kind)
    requires r.todo.Then? && r.state.listener != Some(g.place.listener)
    requires forall e :: e in events ==> !e.Restart?
    ensures var r' := Steps(Step(r, Restart), events);
            && r'.todo.Then?
            && g.place.listener in r'.state.attached
            && Own(GovCloud, g.outgoing) in r'.state.attached[g.place.listener]
  {
    hide InRotation, Stranded, TasksOf;
    RestartStrands(r.state, g);
    AllPipelines(r.kind, g);
    assert Step(r, Restart) == Begin(r.state, r.kind);
    var ph := RunStays(Step(r, Restart), START, g, events);
    StrandedRunGoesOn(Steps(Step(r, Restart), events), ph, g);
  }

  lemma StrandedRunGoesOn(r: Run, ph: Phase, g: Plan)
    requires StrandedRun(r, ph, g)
    ensures r.todo.Then? && g.place.listener in r.state.attached
    ensures Own(GovCloud, g.outgoing) in r.state.attached[g.place.listener]
  {
  }

  lemma SelectedPhase(r: Run, ph: Phase, g: Plan, all: bool)
    requires Running(r, ph, g, all) && r.todo.Then? && r.todo.task.AddCertificateToAlbTask?
    ensures ph == Phase(Selected, false, false)
    ensures r.state.current == Some(g.outgoing) && r.state.distribution.None? && r.state.listener.Some?
  {
    hide TasksOf;
  }

  /** What a restart of this run, about to promote, leads to. */
  predicate RestartOutcome(r: Run, g: Plan, after: seq<Event>) {
    g.place.AtListener? &&
    if r.state.listener == Some(g.place.listener) then Admissible(r, g, Restart)
    else
      var r' := Steps(Step(r, Restart), after);
      && r'.todo.Then?
      && g.place.listener in r'.state.attached
      && Own(GovCloud, g.outgoing) in r'.state.attached[g.place.listener]
  }

  lemma AboutToPromote(r: Run, ph: Phase, g: Plan, all: bool, after: seq<Event>)
    requires Running(r, ph, g, all) && AtAlb(g) && AlbRotation(r.kind)
    requires r.todo.Then? && r.todo.task.AddCertificateToAlbTask?
    requires forall e :: e in after ==> !e.Restart?
    ensures RestartOutcome(r, g, after)
  {
    hide InRotation, Step, Steps, Safe, TasksOf;
    SelectedPhase(r, ph, g, all);
    if r.state.listener != Some(g.place.listener) { RestartedStays(r, g, after); }
  }

  lemma PlanIsAtAlb(s: State, kind: Kind, domains: seq<string>)
    requires Startable(s, kind, domains) && AlbRotation(kind)
    ensures AtAlb(PlanOf(s, kind, domains))
  {
  }

  /**
    A restart between selection and promotion. If the selection kept the listener,
    the restart is one that a rotation survives (see RotationIsSafe). If it changed
    the listener, then whatever happens next, short of another restart, the run
    does not finish and the old certificate stays attached where it was.
   */
  lemma RestartAfterSelection(s: State, kind: Kind, domains: seq<string>, before: seq<Event>, after: seq<Event>)
    requires Startable(s, kind, domains) && AlbRotation(kind)
    requires AdmissibleRun(Begin(Request(s, kind, domains), kind), PlanOf(s, kind, domains), before)
    requires forall e :: e in after ==> !e.Restart?
    ensures var r := Steps(Begin(Request(s, kind, domains), kind), before);
            r.todo.Then? && r.todo.task.AddCertificateToAlbTask? ==>
              RestartOutcome(r, PlanOf(s, kind, domains), after)
  {
    var g := PlanOf(s, kind, domains);
    var r0 := Begin(Request(s, kind, domains), kind);
    hide Running, RestartOutcome, Step, Steps, AdmissibleRun, Startable, Request, PlanOf, TasksOf;
    StartRun(s, kind, domains);
    PlanIsAtAlb(s, kind, domains);
    var ph := RunKeeps(r0, START, g, Renewal(kind), before);
    var r := Steps(r0, before);
    KindStays(r0, before);
    if r.todo.Then? && r.todo.task.AddCertificateToAlbTask? {
      AboutToPromote(r, ph, g, Renewal(kind), after);
    }
  }
}
