/**
  Whole runs of the rotation pipelines: from a steady instance, through any
  number of retries, rejected orders, harmless restarts and changes by other
  tenants, to a steady instance again.
 */
module RotationRuns {
  import opened Wrappers
  import opened Records
  import opened Tasks
  import opened Pipelines
  import opened Rotation
  import opened PhaseOrder

  // ---- what callers are promised ----

  predicate ListenerServes(s: State, l: Listener, c: nat, domain: string) {
    && l in s.attached
    && c in s.certificates
    && s.certificates[c].arn.Some?
    && s.certificates[c].arn.value in s.attached[l]
    && s.certificates[c].arn.value in s.iam
    && domain in s.certificates[c].names
  }

  predicate DistributionServes(s: State, id: nat, c: nat, domain: string) {
    && id in s.served
    && c in s.certificates
    && s.certificates[c].arn == Some(s.served[id])
    && s.served[id] in s.iam
    && domain in s.certificates[c].names
  }

  /** Behind the target there is a certificate of the instance, still in IAM, for
      the domain. */
  ghost predicate Reaches(s: State, target: Target, domain: string) {
    match target
    case LoadBalancer(arn) => exists l: Listener, c: nat :: l.albArn == arn && ListenerServes(s, l, c, domain)
    case Distribution(id) => exists c :: DistributionServes(s, id, c, domain)
  }

  /** Whatever target a resolver is given for these domains, it serves them. */
  ghost predicate NoOutage(s: State, domains: set<string>) {
    forall d :: d in domains ==> d in s.alias && forall t :: t in Visible(s.alias[d], s.insync) ==> Reaches(s, t, d)
  }

  /** No listener holds a certificate of the instance that IAM has lost. */
  ghost predicate AttachedInIam(s: State) {
    forall l, a :: l in s.attached && a in s.attached[l] && a.Own? ==> a in s.iam
  }

  /** A running instance between operations: one certificate row, the current one,
      in use at one place, with every domain pointing there. */
  ghost predicate Steady(s: State) {
    && Fresh(s) && NoLeak(s)
    && s.pending.None? && s.albCertificate.None?
    && s.current.Some? && PlaceNow(s).Some?
    && (PlaceNow(s).value.AtListener? ==> s.previous.None?)
    && var c := s.current.value;
    var p := PlaceNow(s).value;
    var arn := Own(PartitionAt(p), c);
    && s.certificates.Keys == {c}
    && HasArn(s, c, PartitionAt(p)) && arn in s.iam
    && Covers(s, c, s.domains)
    && Attachments(s, Spot(p, arn))
    && s.served == ServedAt(p, arn)
    && s.internal == Some(TargetAt(p))
    && PointAt(s, Domains(s), {TargetAt(p)})
  }

  lemma {:induction false} Serving(s: State, ph: Phase, g: Plan)
    requires InRotation(s, ph, g)
    ensures NoOutage(s, g.kept)
    ensures ph.stage.Synced? ==> NoOutage(s, Domains(s))
    ensures AttachedInIam(s)
  {
    if HasPromoted(ph) {
      var p := PlaceNow(s).value;
      var served := if ph.stage.Synced? then Domains(s) else g.kept;
      forall d, t | d in served && t in Visible(s.alias[d], s.insync) ensures Reaches(s, t, d) {
        if t == TargetAt(p) {
          NewServes(s, ph, g, d);
        } else {
          var arn := Own(PartitionAt(g.place), g.outgoing);
          assert g.place.AtListener? ==>
              (g.place.listener, arn) in Spot(g.place, arn) + Spot(p, Own(PartitionAt(p), s.current.value));
          OutgoingServes(s, g, d);
        }
      }
    } else {
      forall d, t | d in g.kept && t in Visible(s.alias[d], s.insync) ensures Reaches(s, t, d) {
        var arn := Own(PartitionAt(g.place), g.outgoing);
        assert g.place.AtListener? ==> (g.place.listener, arn) in Spot(g.place, arn);
        OutgoingServes(s, g, d);
      }
    }
  }

  lemma NewServes(s: State, ph: Phase, g: Plan, d: string)
    requires InRotation(s, ph, g) && HasPromoted(ph) && d in s.domains
    ensures Reaches(s, TargetAt(PlaceNow(s).value), d)
  {
    var c := s.current.value;
    match PlaceNow(s).value
    case AtListener(l) =>
      assert (l, Own(GovCloud, c)) in Spot(PlaceNow(s).value, Own(GovCloud, c));
      assert ListenerServes(s, l, c, d);
    case AtDistribution(id) =>
      assert DistributionServes(s, id, c, d);
  }

  /** The outgoing certificate serves while it is attached. */
  lemma OutgoingServes(s: State, g: Plan, d: string)
    requires g.outgoing in s.certificates && d in s.certificates[g.outgoing].names
    requires HasArn(s, g.outgoing, PartitionAt(g.place)) && Own(PartitionAt(g.place), g.outgoing) in s.iam
    requires g.place.AtListener? ==>
               exists spots :: Attachments(s, spots) && (g.place.listener, Own(GovCloud, g.outgoing)) in spots
    requires g.place.AtDistribution? ==> s.served == ServedAt(g.place, Own(Commercial, g.outgoing))
    ensures Reaches(s, TargetAt(g.place), d)
  {
    match g.place
    case AtListener(l) => assert ListenerServes(s, l, g.outgoing, d);
    case AtDistribution(id) => assert DistributionServes(s, id, g.outgoing, d);
  }

  // ---- one task, one event ----

  predicate PreparingTask(task: Task) {
    || task.GenerateKeyTask? || task.InitiateChallengesTask? || task.CreateTxtTask? || task.RemoveOldDnsTask?
  }

  predicate ObtainingTask(task: Task) {
    task.AnswerChallengesTask? || task.RetrieveCertificateTask? || task.UploadTask?
  }

  predicate MovingTask(task: Task) {
    || task.SelectAlbTask? || task.SelectDedicatedAlbTask? || task.AddCertificateToAlbTask?
    || task.CreateDistributionTask? || task.UpdateDistributionTask? || task.UpdateCertificateTask?
    || task.CreateAliasTask? || task.WaitForChangesTask?
  }

  predicate RemovingTask(task: Task) {
    || task.RemoveFromPreviousAlbTask? || task.RemoveFromPreviousDuringUpdateToDedicatedTask?
    || task.RemoveAlbCertificateDuringUpdateToCdnTask? || task.DeletePreviousTask?
  }

  lemma PreparingKeeps(task: Task, s: State, ph: Phase, g: Plan, budget: nat)
    requires InRotation(s, ph, g) && Allowed(ph, task, g, true) && PreparingTask(task)
    ensures Keeps(Execute(task, false, s, budget), ph, task, g)
  {
    match task {
      case GenerateKeyTask => KeyKeeps(s, ph, g, budget);
      case InitiateChallengesTask => ChallengesKeep(s, ph, g, budget);
      case CreateTxtTask =>
        if s.pending.Some? && s.pending.value in s.certificates {
          TxtKeeps(s, ph, g, s.certificates[s.pending.value].challenges, budget);
        }
      case RemoveOldDnsTask => OldRecordsKeep(s, ph, g, s.certificates[g.outgoing].challenges);
    }
  }

  lemma ObtainingKeeps(task: Task, s: State, ph: Phase, g: Plan, budget: nat)
    requires InRotation(s, ph, g) && Allowed(ph, task, g, true) && ObtainingTask(task)
    ensures Keeps(Execute(task, false, s, budget), ph, task, g)
  {
    hide InRotation, HasPromoted;
    match task {
      case AnswerChallengesTask =>
        if s.pending.Some? && s.pending.value in s.certificates {
          AnswersKeep(s, ph, g, s.pending.value, 0, budget);
        }
      case RetrieveCertificateTask => RetrieveKeeps(s, ph, g, budget);
      case UploadTask(p) => UploadKeeps(s, ph, g, p, budget);
    }
  }

  lemma MovingKeeps(task: Task, s: State, ph: Phase, g: Plan, all: bool, budget: nat)
    requires InRotation(s, ph, g) && Allowed(ph, task, g, all) && MovingTask(task)
    requires all ==> g.domains <= g.kept
    ensures Keeps(Execute(task, false, s, budget), ph, task, g)
  {
    hide InRotation, HasPromoted;
    match task {
      case WaitForChangesTask => WaitKeeps(s, ph, g, budget);
      case SelectAlbTask => SelectKeeps(s, ph, g, s.shared, budget);
      case SelectDedicatedAlbTask => SelectKeeps(s, ph, g, s.dedicated, budget);
      case AddCertificateToAlbTask => AddKeeps(s, ph, g, budget);
      case CreateAliasTask => CreateAliasKeeps(s, ph, g, budget);
      case CreateDistributionTask => CreateDistributionKeeps(s, ph, g, budget);
      case UpdateDistributionTask => UpdateDistributionKeeps(s, ph, g, budget);
      case UpdateCertificateTask => UpdateCertificateKeeps(s, ph, g, budget);
    }
  }

  lemma RemovingKeeps(task: Task, s: State, ph: Phase, g: Plan, budget: nat)
    requires InRotation(s, ph, g) && Allowed(ph, task, g, true) && RemovingTask(task)
    ensures Keeps(Execute(task, false, s, budget), ph, task, g)
  {
    hide InRotation, HasPromoted;
    match task {
      case RemoveFromPreviousAlbTask => RemoveFromPreviousKeeps(s, ph, g, budget);
      case RemoveFromPreviousDuringUpdateToDedicatedTask => RemoveDuringMoveKeeps(s, ph, g, budget);
      case RemoveAlbCertificateDuringUpdateToCdnTask => RemoveAlbCertificateKeeps(s, ph, g, budget);
      case DeletePreviousTask(p) => DeleteKeeps(s, ph, g, p, budget);
    }
  }

  predicate InertTask(task: Task) {
    && !PreparingTask(task) && !ObtainingTask(task) && !MovingTask(task) && !RemovingTask(task)
    && !task.CreateUserTask? && !task.StoreAlbCertificateTask?
  }

  /** The remaining tasks do not touch what a rotation is about. */
  lemma InertKeeps(task: Task, s: State, ph: Phase, g: Plan, budget: nat)
    requires InertTask(task) && InRotation(s, ph, g)
    ensures Keeps(Execute(task, false, s, budget), ph, task, g)
  {
    hide InRotation;
  }

  lemma ExecuteKeeps(task: Task, s: State, ph: Phase, g: Plan, all: bool, budget: nat)
    requires InRotation(s, ph, g) && Allowed(ph, task, g, all)
    requires all ==> g.domains <= g.kept
    ensures Keeps(Execute(task, false, s, budget), ph, task, g)
  {
    hide InRotation, Keeps, Next;
    if PreparingTask(task) {
      PreparingKeeps(task, s, ph, g, budget);
    } else if ObtainingTask(task) {
      ObtainingKeeps(task, s, ph, g, budget);
    } else if MovingTask(task) {
      MovingKeeps(task, s, ph, g, all, budget);
    } else if RemovingTask(task) {
      RemovingKeeps(task, s, ph, g, budget);
    } else if task.CreateUserTask? {
      UserKeeps(s, ph, g, budget);
    } else if task.StoreAlbCertificateTask? {
      StoreKeeps(s, ph, g);
    } else {
      InertKeeps(task, s, ph, g, budget);
    }
  }

  /** Other tenants' certificates and placements do not matter. */
  lemma ChurnKeeps(s: State, ph: Phase, g: Plan, l: Listener, foreign: set<nat>, open: seq<Listener>)
    requires InRotation(s, ph, g)
    requires g.reuse && g.place.AtListener? ==> g.place.listener !in open
    ensures InRotation(ChurnListener(s, l, foreign, open), ph, g)
  {
    hide InRotation;
    ChurnedKeeps(s, ChurnListener(s, l, foreign, open), ph, g, l, foreign);
  }

  lemma ChurnedKeeps(s: State, s': State, ph: Phase, g: Plan, l: Listener, foreign: set<nat>)
    requires InRotation(s, ph, g) && Churned(s, s', l, foreign)
    requires g.reuse && g.place.AtListener? ==> g.place.listener !in s'.dedicated
    ensures InRotation(s', ph, g)
  {
    assert Domains(s') == Domains(s);
    if HasPromoted(ph) {
      ChurnAfter(s, s', ph, g, l, foreign);
    } else {
      ChurnBefore(s, s', ph, g, l, foreign);
    }
  }

  predicate Churned(s: State, s': State, l: Listener, foreign: set<nat>) {
    s' == s.(dedicated := s'.dedicated,
             attached := if l in s.attached
             then s.attached[l := OwnArns(s.attached[l]) + ForeignArns(foreign)] else s.attached)
  }

  lemma ChurnBefore(s: State, s': State, ph: Phase, g: Plan, l: Listener, foreign: set<nat>)
    requires Before(s, ph.stage, g) && Churned(s, s', l, foreign)
    requires g.reuse && g.place.AtListener? ==> g.place.listener !in s'.dedicated
    ensures Before(s', ph.stage, g)
  {
    ChurnAttachments(s, s', l, foreign, Spot(g.place, Own(PartitionAt(g.place), g.outgoing)));
  }

  lemma ChurnAfter(s: State, s': State, ph: Phase, g: Plan, l: Listener, foreign: set<nat>)
    requires After(s, ph, g) && Churned(s, s', l, foreign)
    ensures After(s', ph, g)
  {
    var p := PlaceNow(s).value;
    assert PlaceNow(s') == Some(p);
    ChurnAttachments(s, s', l, foreign,
      (if ph.detached then {} else Spot(g.place, Own(PartitionAt(g.place), g.outgoing)))
      + Spot(p, Own(PartitionAt(p), s.current.value)));
    assert Domains(s') == Domains(s);
  }

  lemma ChurnAttachments(s: State, s': State, l: Listener, foreign: set<nat>, spots: set<(Listener, Arn)>)
    requires Attachments(s, spots)
    requires forall spot :: spot in spots ==> spot.1.Own?
    requires Churned(s, s', l, foreign)
    ensures Attachments(s', spots)
  {
    forall k, a | k in s'.attached && a in s'.attached[k] && a.Own? ensures (k, a) in spots {
      assert a in s.attached[k];
    }
    forall k, a | (k, a) in spots ensures k in s'.attached && a in s'.attached[k] {
      assert k in s.attached && a in s.attached[k];
    }
  }

  /** Nothing was promoted yet, and the current certificate is still where the
      instance says it is. */
  predicate Restartable(s: State, g: Plan) {
    && s.current == Some(g.outgoing)
    && PlaceNow(s) == Some(g.place)
    && (g.reuse ==> s.pending.Some?)
  }

  lemma RestartKeeps(s: State, ph: Phase, g: Plan)
    requires InRotation(s, ph, g) && Restartable(s, g)
    ensures InRotation(s, START, g)
  {
    assert !HasPromoted(ph);
    if ph.stage.Selected? {
      assert Before(s, Issuing, g);
    }
  }

  /** A restart happens while nothing was promoted; shared and dedicated listeners are
      disjoint. */
  predicate Admissible(r: Run, g: Plan, e: Event) {
    match e
    case Restart => Restartable(r.state, g)
    case Churn(_, _, open) => g.reuse && g.place.AtListener? ==> g.place.listener !in open
    case _ => true
  }

  ghost predicate Running(r: Run, ph: Phase, g: Plan, all: bool) {
    && InRotation(r.state, ph, g)
    && (all ==> g.domains <= g.kept)
    && !Provisions(r.kind)
    && Safe(ph, r.todo, g, all)
    && Safe(START, TasksOf(RestartKind(r.kind)), g, all)
  }

  lemma TryKeeps(r: Run, ph: Phase, g: Plan, all: bool, budget: nat) returns (ph': Phase)
    requires Running(r, ph, g, all) && r.todo.Then?
    ensures Running(Step(r, Try(budget)), ph', g, all)
    ensures ph' == if Execute(r.todo.task, Provisions(r.kind), r.state, budget).ok then Next(ph, r.todo.task) else ph
  {
    hide InRotation, Execute;
    var o := Execute(r.todo.task, Provisions(r.kind), r.state, budget);
    ExecuteKeeps(r.todo.task, r.state, ph, g, all, budget);
    ph' := if o.ok then Next(ph, r.todo.task) else ph;
    assert InRotation(o.state, ph', g);
    assert Safe(ph', if o.ok then r.todo.rest else r.todo, g, all);
  }

  /** An event that only touches the state, and keeps the invariant, keeps the run going. */
  lemma StillRunning(r: Run, s: State, ph: Phase, g: Plan, all: bool)
    requires Running(r, ph, g, all) && InRotation(s, ph, g)
    ensures Running(r.(state := s), ph, g, all)
  {
  }

  lemma RejectStepKeeps(r: Run, ph: Phase, g: Plan, all: bool)
    requires Running(r, ph, g, all)
    ensures Running(Step(r, Reject), ph, g, all)
  {
    if r.todo.Then? && r.todo.task.RetrieveCertificateTask? {
      RejectKeeps(r.state, ph, g);
      StillRunning(r, RejectOrder(r.state), ph, g, all);
    }
  }

  lemma RestartStepKeeps(r: Run, ph: Phase, g: Plan, all: bool) returns (ph': Phase)
    requires Running(r, ph, g, all) && Admissible(r, g, Restart)
    ensures Running(Step(r, Restart), ph', g, all)
    ensures ph' == if r.todo.Then? && !r.kind.DedicatedToCdnWaf? then START else ph
  {
    ph' := ph;
    if r.todo.Then? && !r.kind.DedicatedToCdnWaf? {
      RestartKeeps(r.state, ph, g);
      ph' := START;
    }
  }

  lemma ChurnStepKeeps(r: Run, ph: Phase, g: Plan, all: bool, e: Event)
    requires Running(r, ph, g, all) && Admissible(r, g, e) && e.Churn?
    ensures Running(Step(r, e), ph, g, all)
  {
    ChurnKeeps(r.state, ph, g, e.listener, e.foreign, e.open);
    StillRunning(r, ChurnListener(r.state, e.listener, e.foreign, e.open), ph, g, all);
  }

  lemma StepKeeps(r: Run, ph: Phase, g: Plan, all: bool, e: Event) returns (ph': Phase)
    requires Running(r, ph, g, all) && Admissible(r, g, e)
    ensures Running(Step(r, e), ph', g, all)
  {
    ph' := ph;
    match e {
      case Try(budget) =>
        if r.todo.Then? {
          ph' := TryKeeps(r, ph, g, all, budget);
        }
      case Reject => RejectStepKeeps(r, ph, g, all);
      case Restart => ph' := RestartStepKeeps(r, ph, g, all);
      case Churn(_, _, _) => ChurnStepKeeps(r, ph, g, all, e);
    }
  }

  // ---- whole runs ----

  /** Every event of the run is admissible where it happens. */
  predicate AdmissibleRun(r: Run, g: Plan, events: seq<Event>)
    decreases |events|
  {
    events == [] || (Admissible(r, g, events[0]) && AdmissibleRun(Step(r, events[0]), g, events[1..]))
  }

  lemma {:induction false} RunKeeps(r: Run, ph: Phase, g: Plan, all: bool, events: seq<Event>) returns (ph': Phase)
    requires Running(r, ph, g, all) && AdmissibleRun(r, g, events)
    ensures Running(Steps(r, events), ph', g, all)
    decreases |events|
  {
    ph' := ph;
    if events != [] {
      var ph1 := StepKeeps(r, ph, g, all, events[0]);
      ph' := RunKeeps(Step(r, events[0]), ph1, g, all, events[1..]);
    }
  }

  lemma SyncedIsSteady(s: State, ph: Phase, g: Plan)
    requires InRotation(s, ph, g) && ph.stage.Synced? && ph.detached && (ph.cleaned || g.reuse)
    ensures Steady(s)
  {
    var p := PlaceNow(s).value;
    var arn := Own(PartitionAt(p), s.current.value);
    assert {} + Spot(p, arn) == Spot(p, arn);
    assert s.certificates.Keys == {s.current.value};
  }

  lemma FinishedIsSteady(r: Run, ph: Phase, g: Plan, all: bool)
    requires Running(r, ph, g, all) && r.todo.Finished?
    ensures Steady(r.state)
    ensures Domains(r.state) == g.domains && PlaceNow(r.state).value.AtDistribution? == g.toCdn
  {
    assert InRotation(r.state, ph, g) && ph.stage.Synced? && ph.detached && (ph.cleaned || g.reuse);
    SyncedIsSteady(r.state, ph, g);
  }

  // ---- the pipelines that rotate ----

  /** The moves that leave a load balancer change the type of the instance before its
      new domains are committed, and changing the type forgets what is pending. */
  predicate ForgetsDomains(kind: Kind) {
    kind.AlbToDedicated? || kind.DedicatedToCdnWaf?
  }

  /** The request has domains to apply: it names some, and not those there are. */
  predicate Applies(s: State, kind: Kind, domains: seq<string>) {
    !Renewal(kind) && !ForgetsDomains(kind) && domains != [] && !SameDomains(domains, s.domains)
  }

  /** What the update request does to the instance row before it queues the tasks;
      a renewal changes nothing. */
  function Request(s: State, kind: Kind, domains: seq<string>): State {
    var changed := Applies(s, kind, domains);
    var reuse := kind.AlbToDedicated? || (FromDistribution(kind) && !Renewal(kind) && !changed);
    s.(domains := if changed then domains else s.domains,
       pending := if reuse then s.current else s.pending)
  }

  /** There is a certificate in use, and a place for it. */
  predicate Located(s: State) {
    s.current.Some? && PlaceNow(s).Some?
  }

  function PlanOf(s: State, kind: Kind, domains: seq<string>): Plan
    requires Located(s)
  {
    var s' := Request(s, kind, domains);
    Plan(s.current.value, PlaceNow(s).value,
         Domains(s'), Domains(s') * Domains(s),
         s'.pending.Some?,
         kind.DedicatedToCdnWaf? || FromDistribution(kind))
  }

  /** What each pipeline asks of the instance it is started for. A move to a
      dedicated load balancer leaves a shared listener. */
  ghost predicate Startable(s: State, kind: Kind, domains: seq<string>) {
    && Located(s)
    && Steady(s)
    && (if PlaceNow(s).value.AtListener? then FromListener(kind) else FromDistribution(kind))
    && (kind.AlbToDedicated? ==> s.listener.value !in s.dedicated)
  }

  lemma StartRotation(s: State, kind: Kind, domains: seq<string>)
    requires Startable(s, kind, domains)
    ensures InRotation(Request(s, kind, domains), START, PlanOf(s, kind, domains))
    ensures Renewal(kind) ==> PlanOf(s, kind, domains).domains <= PlanOf(s, kind, domains).kept
  {
    var s' := Request(s, kind, domains);
    var g := PlanOf(s, kind, domains);
    StartBefore(s, s', g);
  }

  lemma StartBefore(s: State, s': State, g: Plan)
    requires Steady(s) && s' == s.(domains := s'.domains, pending := s'.pending)
    requires g.outgoing == s.current.value && g.place == PlaceNow(s).value
    requires g.domains == Domains(s') && g.kept == Domains(s) * Domains(s')
    requires s'.pending == if g.reuse then s.current else None
    requires g.place.AtDistribution? ==> g.toCdn
    requires g.reuse ==> Covers(s', g.outgoing, s'.domains)
    requires g.reuse && g.place.AtListener? ==> g.place.listener !in s.dedicated && !g.toCdn
    requires g.reuse && g.place.AtDistribution? ==> PartitionAt(g.place) == Commercial
    ensures InRotation(s', START, g)
  {
    assert {g.outgoing, g.outgoing} == {g.outgoing};
    assert Before(s', Issuing, g);
  }

  lemma StartRun(s: State, kind: Kind, domains: seq<string>)
    requires Startable(s, kind, domains)
    ensures Running(Begin(Request(s, kind, domains), kind), START, PlanOf(s, kind, domains), Renewal(kind))
  {
    hide InRotation, Safe;
    StartRotation(s, kind, domains);
    var g := PlanOf(s, kind, domains);
    assert Fits(kind, g);
    PipelineIsSafe(kind, g);
    RestartIsSafe(kind, g);
  }

  // ---- main results ----

  lemma SafeNow(r: Run, ph: Phase, g: Plan, all: bool)
    requires Running(r, ph, g, all)
    ensures NoOutage(r.state, g.kept) && AttachedInIam(r.state)
    ensures r.todo.Finished? ==> Steady(r.state) && NoOutage(r.state, Domains(r.state))
  {
    hide InRotation, Steady, NoOutage, AttachedInIam;
    Serving(r.state, ph, g);
    if r.todo.Finished? {
      FinishedIsSteady(r, ph, g, all);
      SteadyServes(r.state);
    }
  }

  /**
    No outage. Start any rotating pipeline on a steady instance and let anything
    admissible happen: at every moment the domains it keeps are served, and no
    listener holds a certificate that IAM lost; when the pipeline finishes, every
    domain is served and the instance is steady again.
   */
  lemma RotationIsSafe(s: State, kind: Kind, domains: seq<string>, events: seq<Event>)
    requires Startable(s, kind, domains)
    requires AdmissibleRun(Begin(Request(s, kind, domains), kind), PlanOf(s, kind, domains), events)
    ensures var r := Steps(Begin(Request(s, kind, domains), kind), events);
            && NoOutage(r.state, PlanOf(s, kind, domains).kept)
            && AttachedInIam(r.state)
            && (r.todo.Finished? ==> Steady(r.state) && NoOutage(r.state, Domains(r.state)))
  {
    hide Running, NoOutage, AttachedInIam, Step, Steps, AdmissibleRun, Request;
    StartRun(s, kind, domains);
    var g := PlanOf(s, kind, domains);
    var ph := RunKeeps(Begin(Request(s, kind, domains), kind), START, g, Renewal(kind), events);
    SafeNow(Steps(Begin(Request(s, kind, domains), kind), events), ph, g, Renewal(kind));
  }

  /** IAM would delete every certificate of these rows. */
  ghost predicate Deletable(s: State, partition: Partition, budget: nat) {
    && (forall id :: id in Others(s) ==> !InUse(s, Own(partition, id)))
    && (budget > 0 ==> DeletePreviousCertificates(s, partition, budget).ok)
  }

  lemma AboutToDelete(r: Run, ph: Phase, g: Plan, all: bool, budget: nat)
    requires Running(r, ph, g, all) && r.todo.Then? && r.todo.task.DeletePreviousTask?
    ensures Deletable(r.state, r.todo.task.partition, budget)
  {
    hide InRotation, InUse, Others;
    DeleteKeeps(r.state, ph, g, r.todo.task.partition, budget);
  }

  /** When a run comes to delete the previous certificates, none is in use and IAM
      refuses none. */
  lemma DeletesOnlyIdle(s: State, kind: Kind, domains: seq<string>, events: seq<Event>, budget: nat)
    requires Startable(s, kind, domains)
    requires AdmissibleRun(Begin(Request(s, kind, domains), kind), PlanOf(s, kind, domains), events)
    ensures var r := Steps(Begin(Request(s, kind, domains), kind), events);
            r.todo.Then? && r.todo.task.DeletePreviousTask? ==> Deletable(r.state, r.todo.task.partition, budget)
  {
    hide Running, Deletable;
    StartRun(s, kind, domains);
    var g := PlanOf(s, kind, domains);
    var ph := RunKeeps(Begin(Request(s, kind, domains), kind), START, g, Renewal(kind), events);
    var r := Steps(Begin(Request(s, kind, domains), kind), events);
    if r.todo.Then? && r.todo.task.DeletePreviousTask? {
      AboutToDelete(r, ph, g, Renewal(kind), budget);
    }
  }

  /** One renewal after another, each started when the one before has finished. */
  function Renewals(s: State, kind: Kind, runs: seq<seq<Event>>): State
    decreases |runs|
  {
    if runs == [] then s else Renewals(Steps(Begin(s, kind), runs[0]).state, kind, runs[1..])
  }

  ghost predicate FinishedRenewals(s: State, kind: Kind, runs: seq<seq<Event>>)
    decreases |runs|
  {
    runs == [] ||
    (Steady(s)
     && AdmissibleRun(Begin(s, kind), PlanOf(s, kind, s.domains), runs[0])
     && Steps(Begin(s, kind), runs[0]).todo.Finished?
     && FinishedRenewals(Steps(Begin(s, kind), runs[0]).state, kind, runs[1..]))
  }

  /** Any number of renewals leaves every domain served and the instance steady. */
  lemma {:induction false} RenewForever(s: State, kind: Kind, runs: seq<seq<Event>>)
    requires Steady(s) && Renewal(kind)
    requires PlaceNow(s).value.AtListener? <==> !kind.CdnRenewal?
    requires FinishedRenewals(s, kind, runs)
    ensures var s' := Renewals(s, kind, runs);
            Steady(s') && NoOutage(s', Domains(s')) && Domains(s') == Domains(s)
    decreases |runs|
  {
    hide InRotation, Safe, Execute;
    if runs == [] {
      SteadyServes(s);
    } else {
      var g := PlanOf(s, kind, s.domains);
      var r := Steps(Begin(s, kind), runs[0]);
      assert Request(s, kind, s.domains) == s;
      StartRun(s, kind, s.domains);
      var ph := RunKeeps(Begin(s, kind), START, g, true, runs[0]);
      FinishedIsSteady(r, ph, g, true);
      RenewForever(r.state, kind, runs[1..]);
    }
  }

  lemma SteadyServes(s: State)
    requires Steady(s)
    ensures NoOutage(s, Domains(s))
  {
    var c := s.current.value;
    forall d, t | d in Domains(s) && t in Visible(s.alias[d], s.insync) ensures Reaches(s, t, d) {
      match PlaceNow(s).value
      case AtListener(l) =>
        assert (l, Own(GovCloud, c)) in Spot(PlaceNow(s).value, Own(GovCloud, c));
        assert ListenerServes(s, l, c, d);
      case AtDistribution(id) =>
        assert DistributionServes(s, id, c, d);
    }
  }
}
