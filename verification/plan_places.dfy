/**
  The pipeline queued for a plan leaves the instance in a place of that plan: on one of
  its own listeners, or at a distribution, whatever happens to the run.
 */
module PlanPlaces {
  import opened Wrappers
  import opened Records
  import opened Tasks
  import opened Pipelines
  import opened Frames
  import opened PlanQueues
  import O = Operations

  /** The instance is where instances of the plan are; `offered` are the dedicated
      listeners it may have been given. */
  predicate InPlace(plan: O.Plan, s: State, offered: set<Listener>) {
    match plan
    case Alb => s.listener.Some? && s.listener.value in s.shared
    case DedicatedAlb => s.listener.Some? && s.listener.value in offered
    case _ => s.distribution.Some? && s.distribution.value in s.served
  }

  /** The pipeline is queued for an operation that leads to the plan. */
  predicate LeadsTo(kind: Kind, plan: O.Plan) {
    || kind == O.ProvisionKind(plan) || kind == O.RenewKind(plan)
    || exists from :: O.CanMove(from, plan) && kind == O.MoveKind(from, plan)
  }

  function OfferedBy(e: Event): set<Listener> {
    if e.Churn? then set l | l in e.open else {}
  }

  function OfferedIn(events: seq<Event>): set<Listener>
    decreases |events|
  {
    if events == [] then {} else OfferedBy(events[0]) + OfferedIn(events[1..])
  }

  /** The dedicated listeners with room, at the start and whenever that changed. */
  function Offered(s: State, events: seq<Event>): set<Listener> {
    (set l | l in s.dedicated) + OfferedIn(events)
  }

  // ---- one task ----

  predicate Own(t: Task, plan: O.Plan) {
    match plan
    case Alb => t.SelectAlbTask?
    case DedicatedAlb => t.SelectDedicatedAlbTask?
    case _ => t.CreateDistributionTask? || t.UpdateDistributionTask? || t.UpdateCertificateTask?
  }

  /** What a place is told by. */
  predicate SamePlace(s: State, s': State) {
    && s'.listener == s.listener && s'.distribution == s.distribution && s'.served == s.served
    && s'.shared == s.shared && s'.dedicated == s.dedicated
  }

  lemma OtherKeepsPlace(t: Task, provisioning: bool, s: State, budget: nat)
    requires !Loops(t) && !FillsIn(t) && !Is(t, Placing)
    ensures SamePlace(s, Execute(t, provisioning, s, budget).state)
  {
    hide Others, Ascending, Usable;
  }

  lemma TaskKeepsPlace(t: Task, provisioning: bool, s: State, budget: nat)
    requires !Is(t, Placing)
    ensures SamePlace(s, Execute(t, provisioning, s, budget).state)
  {
    hide Execute;
    if Loops(t) {
      LoopFrame(t, provisioning, s, budget);
    } else {
      if FillsIn(t) { FillingFrame(t, provisioning, s, budget); } else { OtherKeepsPlace(t, provisioning, s, budget); }
    }
  }

  /** A provisioning keeps the listener it has, so it must have come from the list. */
  predicate Unplaced(plan: O.Plan, s: State, offered: set<Listener>) {
    s.listener.Some? && !O.OnDistribution(plan) ==> InPlace(plan, s, offered)
  }

  lemma OwnTaskPlaces(t: Task, plan: O.Plan, provisioning: bool, s: State, budget: nat, offered: set<Listener>)
    requires Own(t, plan) && (forall l :: l in s.dedicated ==> l in offered)
    requires provisioning ==> Unplaced(plan, s, offered)
    ensures var o := Execute(t, provisioning, s, budget);
            && (if o.ok then InPlace(plan, o.state, offered) else o.state == s)
            && o.state.shared == s.shared && o.state.dedicated == s.dedicated
            && (provisioning ==> Unplaced(plan, o.state, offered))
  {
    hide Usable;
  }

  // ---- runs ----

  /** Only tasks of the plan are to choose the place, and when none is left it is right. */
  ghost predicate Toward(plan: O.Plan, r: Run, offered: set<Listener>) {
    && LeadsTo(r.kind, plan)
    && (forall l :: l in r.state.dedicated ==> l in offered)
    && (Provisions(r.kind) ==> Unplaced(plan, r.state, offered))
    && (forall t :: t in Only(r.todo, Placing) ==> Own(t, plan))
    && (Only(r.todo, Placing) == [] ==> InPlace(plan, r.state, offered))
  }

  lemma ChainIsOwn(kind: Kind, plan: O.Plan)
    requires LeadsTo(kind, plan)
    ensures Only(TasksOf(kind), Placing) != []
    ensures forall t :: t in Only(TasksOf(kind), Placing) ==> Own(t, plan)
  {
    hide Only, TasksOf;
    if kind == O.ProvisionKind(plan) {
      ProvisionTasks(plan, Placing);
    } else if kind == O.RenewKind(plan) {
      RenewalTasks(plan, Placing);
    } else {
      var from :| O.CanMove(from, plan) && kind == O.MoveKind(from, plan);
      if from == plan { UpdateTasks(plan, Placing); } else { MoveTasks(from, plan, Placing); }
    }
  }

  /** What the scan starts again leads to the same plan; the move that leaves a dedicated
      load balancer it does not start. */
  lemma RestartLeadsThere(kind: Kind, plan: O.Plan)
    requires LeadsTo(kind, plan) && !kind.DedicatedToCdnWaf?
    ensures LeadsTo(RestartKind(kind), plan)
    ensures RestartKind(kind) == kind || (RestartKind(kind) == O.UpdateKind(plan) && !Provisions(kind))
  {
    assert O.CanMove(plan, plan) && O.MoveKind(plan, plan) == O.UpdateKind(plan);
  }

  lemma NextIsOwn(plan: O.Plan, r: Run, offered: set<Listener>)
    requires Toward(plan, r, offered) && r.todo.Then? && Is(r.todo.task, Placing)
    ensures Own(r.todo.task, plan)
  {
    Take(r.todo.task, r.todo.rest, Placing);
    assert r.todo.task in Only(r.todo, Placing);
  }

  lemma StepStaysToward(plan: O.Plan, r: Run, offered: set<Listener>, e: Event)
    requires Toward(plan, r, offered)
    ensures Toward(plan, Step(r, e), offered + OfferedBy(e))
  {
    hide Execute, TasksOf, LeadsTo;
    match e {
      case Try(budget) =>
        if r.todo.Then? {
          var t := r.todo.task;
          if Is(t, Placing) {
            NextIsOwn(plan, r, offered);
            OwnTaskPlaces(t, plan, Provisions(r.kind), r.state, budget, offered);
          } else {
            TaskKeepsPlace(t, Provisions(r.kind), r.state, budget);
          }
        }
      case Restart =>
        if r.todo.Then? && !r.kind.DedicatedToCdnWaf? {
          RestartLeadsThere(r.kind, plan);
          ChainIsOwn(RestartKind(r.kind), plan);
        }
      case _ =>
    }
  }

  lemma {:induction false} RunStaysToward(plan: O.Plan, r: Run, offered: set<Listener>, events: seq<Event>)
    requires Toward(plan, r, offered)
    ensures Toward(plan, Steps(r, events), offered + OfferedIn(events))
    decreases |events|
  {
    hide Toward, Step;
    if events == [] {
      assert offered + OfferedIn(events) == offered;
    } else {
      StepStaysToward(plan, r, offered, events[0]);
      assert offered + OfferedBy(events[0]) + OfferedIn(events[1..]) == offered + OfferedIn(events);
      RunStaysToward(plan, Step(r, events[0]), offered + OfferedBy(events[0]), events[1..]);
    }
  }

  /**
    Any finished run of the pipeline that is queued for a plan (for its provisioning, its
    renewal, its update, or a move to it) leaves the instance in a place of that plan: an
    instance on the shared plan on a shared listener, one on the dedicated plan on a
    listener its organization was offered, and the others at a distribution.
   */
  lemma FinishedInPlace(plan: O.Plan, s: State, kind: Kind, events: seq<Event>)
    requires LeadsTo(kind, plan) && (Provisions(kind) ==> s.listener.None?)
    requires Steps(Begin(s, kind), events).todo.Finished?
    ensures InPlace(plan, Steps(Begin(s, kind), events).state, Offered(s, events))
  {
    hide LeadsTo, TasksOf, Step;
    ChainIsOwn(kind, plan);
    RunStaysToward(plan, Begin(s, kind), Offered(s, []), events);
    assert Offered(s, []) + OfferedIn(events) == Offered(s, events);
  }
}
