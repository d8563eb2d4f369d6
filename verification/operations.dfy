/**
  The life of operations: requests, the renewal scan, the worker with its retries,
  cancellation by a deprovision, final failure, and the restart of stalled
  pipelines, over any number of instances and operations.

  One request, one scan and one task body are each one atomic step. A worker's
  pipeline is the operation's list of steps to do; a stalled operation's old
  pipeline is dead when it is started again. A canceled execution drops the task
  and the rest of its pipeline: the worker cancels the tasks of a canceled
  operation, and a retrieval that finds no pending certificate cancels itself.
 */
module Operations {
  import opened Wrappers
  import P = Pipelines
  import R = Records

  datatype Plan = Alb | DedicatedAlb | Cdn | CdnWaf

  datatype Action = Provision | Deprovision | Renew | Update

  datatype Progress = InProgress | Succeeded | Failed

  /** What a task does to operations and instances, if anything. `MakeKey` makes a
      pending certificate unless there is one, `Retrieve` fetches it from the authority,
      `Promote` makes it the current one, and so does `Distribute`, unless there is a
      distribution. */
  datatype Duty =
    | Work | MakeKey | Retrieve | Promote | Distribute | ChangeType
    | CancelOthers | Complete | Deactivate

  /** How a task body ends. `Rejects` is the failure of a retrieval whose order the
      authority found invalid. */
  datatype Outcome = Succeeds | Raises | Rejects

  /** A queued task. `positional` says that the operation id is its first argument,
      where the cancellation check and the failure handler look for it. */
  datatype Step = Step(duty: Duty, positional: bool, retries: nat)

  datatype Operation = Operation(instance: string, action: Action, state: Progress, canceled: bool, todo: seq<Step>)

  /** The columns for the current and the new certificate hold their ids; `migrating`
      says that the row has the type between a dedicated load balancer and a
      distribution, which the last but one task of that move gives up. */
  datatype Instance = Instance(
    plan: Plan,
    domains: seq<string>,
    current: Option<nat>,
    pending: Option<nat>,
    distribution: bool,
    migrating: bool,
    deactivated: bool)

  /** Besides the rows: which certificates were retrieved, and the next id of one. */
  datatype State = State(
    instances: map<string, Instance>,
    operations: seq<Operation>,
    retrieved: set<nat>,
    nextCertificate: nat)

  /** Every ten minutes for four hours. */
  const RETRIES: nat := 24

  // ---- the queued tasks ----

  function DutyOf(t: P.Task): Duty {
    match t
    case GenerateKeyTask => MakeKey
    case RetrieveCertificateTask => Retrieve
    case AddCertificateToAlbTask => Promote
    case UpdateDistributionTask => Promote
    case UpdateCertificateTask => Promote
    case CreateDistributionTask => Distribute
    case ChangeToCdnDedicatedWafTask => ChangeType
    case ProvisionTask => Complete
    case UpdateCompleteTask => Complete
    case _ => Work
  }

  function StepOf(t: P.Task): Step {
    Step(DutyOf(t), true, if t.GenerateKeyTask? then 0 else RETRIES)
  }

  function Queue(p: P.Pipeline): seq<Step> {
    if p.Finished? then [] else [StepOf(p.task)] + Queue(p.rest)
  }

  function Worker(positional: bool): Step {
    Step(Work, positional, RETRIES)
  }

  /** The distribution's and the firewall's deletion are queued with the operation
      id as a keyword argument. */
  function DeprovisionQueue(plan: Plan): seq<Step> {
    var first := [Step(CancelOthers, true, RETRIES), Worker(true), Worker(true)];
    var last := [Worker(true), Step(Deactivate, true, RETRIES)];
    match plan
    case Alb => first + [Worker(true)] + last
    case DedicatedAlb => first + [Worker(true)] + last
    case Cdn => first + seq(2, i => Worker(true)) + [Worker(false)] + last
    case CdnWaf => first + seq(8, i => Worker(true)) + [Worker(false), Worker(false)] + last
  }

  function ProvisionKind(plan: Plan): P.Kind {
    match plan
    case Alb => P.AlbProvision
    case DedicatedAlb => P.DedicatedProvision
    case Cdn => P.CdnProvision
    case CdnWaf => P.CdnWafProvision
  }

  function RenewKind(plan: Plan): P.Kind {
    match plan
    case Alb => P.AlbRenewal
    case DedicatedAlb => P.DedicatedRenewal
    case Cdn => P.CdnRenewal
    case CdnWaf => P.CdnRenewal
  }

  function UpdateKind(plan: Plan): P.Kind {
    match plan
    case Alb => P.AlbUpdate
    case DedicatedAlb => P.DedicatedUpdate
    case Cdn => P.CdnUpdate
    case CdnWaf => P.CdnWafUpdate
  }

  function MoveKind(from: Plan, to: Plan): P.Kind
    requires CanMove(from, to)
  {
    if from == to then UpdateKind(to)
    else if from.Alb? then P.AlbToDedicated
    else if from.DedicatedAlb? then P.DedicatedToCdnWaf
    else P.CdnToCdnWaf
  }

  predicate CanMove(from: Plan, to: Plan) {
    || from == to
    || (from.Alb? && to.DedicatedAlb?)
    || (from.DedicatedAlb? && to.CdnWaf?)
    || (from.Cdn? && to.CdnWaf?)
  }

  /** What the stalled scan queues: by the instance's plan and the action. */
  function QueueFor(plan: Plan, action: Action): seq<Step> {
    match action
    case Provision => Queue(P.TasksOf(ProvisionKind(plan)))
    case Deprovision => DeprovisionQueue(plan)
    case Renew => Queue(P.TasksOf(RenewKind(plan)))
    case Update => Queue(P.TasksOf(UpdateKind(plan)))
  }

  // ---- requests ----

  predicate Active(op: Operation) {
    op.state.InProgress? && !op.canceled
  }

  predicate HasActive(s: State, id: string) {
    exists i :: 0 <= i < |s.operations| && s.operations[i].instance == id && Active(s.operations[i])
  }

  function New(id: string, action: Action, todo: seq<Step>): Operation {
    Operation(id, action, InProgress, false, todo)
  }

  /** The row's primary key refuses an instance id that is taken. */
  function ProvisionRequest(s: State, id: string, plan: Plan, domains: seq<string>): State {
    if id in s.instances then s
    else
      s.(instances := s.instances[id := Instance(plan, domains, None, None, false, false, false)],
         operations := s.operations + [New(id, Provision, Queue(P.TasksOf(ProvisionKind(plan))))])
  }

  /** The plans whose certificate is served by a distribution. */
  predicate OnDistribution(plan: Plan) {
    plan.Cdn? || plan.CdnWaf?
  }

  /** The request names domains, and not the ones there are. */
  predicate Changed(instance: Instance, requested: seq<string>) {
    requested != [] && !R.SameDomains(requested, instance.domains)
  }

  /** To change the type of an instance forgets what is pending on its row, and only
      the move between distributions has committed its domains by then. */
  predicate Forgets(from: Plan, to: Plan) {
    from != to && !from.Cdn?
  }

  predicate Migrates(from: Plan, to: Plan) {
    from.DedicatedAlb? && to.CdnWaf?
  }

  /** The row as the request has changed it so far: new domains are taken over, and a CDN
      instance that keeps its domains is to use its certificate again. */
  function Asked(was: Instance, requested: seq<string>): Instance {
    if Changed(was, requested) then was.(domains := requested)
    else if OnDistribution(was.plan) then was.(pending := was.current)
    else was
  }

  /** `valid` says that the domains asked for were accepted, `accepted` that the
      other parameters were; only the plans on a distribution have those. The move
      between distributions commits the row before it looks at them. No branch of
      the request is for a migrating instance: with new domains it commits them and an
      operation, and then finds no pipeline to queue. */
  function UpdateRequest(s: State, id: string, plan: Plan, requested: seq<string>, valid: bool, accepted: bool): State {
    if id !in s.instances || s.instances[id].deactivated || HasActive(s, id) then s
    else
      var was := s.instances[id];
      var asked := Asked(was, requested);
      if requested != [] && !valid then s
      else if was.migrating then
        if Changed(was, requested) then
          s.(instances := s.instances[id := asked], operations := s.operations + [New(id, Update, [])])
        else s
      else if !CanMove(was.plan, plan) then s
      else if OnDistribution(plan) && !accepted then
        if was.plan.Cdn? && plan.CdnWaf? then s.(instances := s.instances[id := asked]) else s
      else if was.plan == plan && !OnDistribution(plan) && !Changed(was, requested) then s
      else
        var becomes :=
          if Forgets(was.plan, plan)
          then was.(plan := plan, migrating := Migrates(was.plan, plan),
                    pending := if plan.DedicatedAlb? then was.current else was.pending)
          else asked.(plan := plan);
        s.(instances := s.instances[id := becomes],
           operations := s.operations + [New(id, Update, Queue(P.TasksOf(MoveKind(was.plan, plan))))])
  }

  /** The request names the plan; nothing is checked but that the instance exists. */
  function DeprovisionRequest(s: State, id: string, plan: Plan): State {
    if id !in s.instances then s
    else s.(operations := s.operations + [New(id, Deprovision, DeprovisionQueue(plan))])
  }

  // ---- scans ----

  function RenewOne(s: State, id: string): State {
    if id !in s.instances || s.instances[id].deactivated || HasActive(s, id) then s
    else s.(operations := s.operations + [New(id, Renew, Queue(P.TasksOf(RenewKind(s.instances[id].plan))))])
  }

  /** `expiring` are the instances whose current certificate expires soon. */
  function RenewalScan(s: State, expiring: seq<string>): State
    decreases |expiring|
  {
    if expiring == [] then s else RenewalScan(RenewOne(s, expiring[0]), expiring[1..])
  }

  function Restart(s: State, i: nat): State {
    if i < |s.operations| && Active(s.operations[i]) && s.operations[i].instance in s.instances then
      var op := s.operations[i];
      s.(operations := s.operations[i := op.(todo := QueueFor(s.instances[op.instance].plan, op.action))])
    else s
  }

  /** There are no pipelines for the type of a migrating instance: to look one up raises,
      and the scan ends there. */
  predicate Blocks(s: State, i: nat) {
    && i < |s.operations| && Active(s.operations[i])
    && s.operations[i].instance in s.instances && s.instances[s.operations[i].instance].migrating
  }

  /** `stalled` are the operations that nothing has touched for a while. */
  function StalledScan(s: State, stalled: seq<nat>): State
    decreases |stalled|
  {
    if stalled == [] || Blocks(s, stalled[0]) then s else StalledScan(Restart(s, stalled[0]), stalled[1..])
  }

  // ---- the worker ----

  function CancelOne(op: Operation, id: string): Operation {
    if op.instance == id && !op.action.Deprovision? && op.state.InProgress? then op.(canceled := true) else op
  }

  function CancelPending(operations: seq<Operation>, id: string): (r: seq<Operation>)
    ensures |r| == |operations|
    ensures forall i :: 0 <= i < |r| ==> r[i] == CancelOne(operations[i], id)
  {
    seq(|operations|, i requires 0 <= i < |operations| => CancelOne(operations[i], id))
  }

  /** The first task of the operation's pipeline is picked up and its body run. */
  predicate Starts(s: State, i: nat) {
    && i < |s.operations|
    && s.operations[i].todo != []
    && !(s.operations[i].todo[0].positional && s.operations[i].canceled)
  }

  function Promoted(i: Instance): Instance {
    if i.pending.Some? then i.(current := i.pending, pending := None) else i
  }

  /** What the body of a task does to its instance and to certificates. */
  function Effect(s: State, id: string, duty: Duty): State {
    if id !in s.instances then s
    else
      var i := s.instances[id];
      match duty
      case MakeKey =>
        if i.pending.Some? then s
        else
          s.(instances := s.instances[id := i.(pending := Some(s.nextCertificate))],
             nextCertificate := s.nextCertificate + 1)
      case Retrieve => if i.pending.Some? then s.(retrieved := s.retrieved + {i.pending.value}) else s
      case Promote => s.(instances := s.instances[id := Promoted(i)])
      case Distribute =>
        if i.distribution then s else s.(instances := s.instances[id := Promoted(i).(distribution := true)])
      case ChangeType => s.(instances := s.instances[id := i.(migrating := false)])
      case Deactivate => s.(instances := s.instances[id := i.(deactivated := true)])
      case _ => s
  }

  /** A retrieval without a pending certificate cancels itself. */
  predicate Abandons(s: State, id: string, duty: Duty) {
    duty.Retrieve? && id in s.instances && s.instances[id].pending.None?
  }

  function Perform(s: State, i: nat): State
    requires Starts(s, i)
  {
    var op := s.operations[i];
    var duty := op.todo[0].duty;
    var left := op.(todo := if Abandons(s, op.instance, duty) then [] else op.todo[1..],
                    state := if duty.Complete? || duty.Deactivate? then Succeeded else op.state);
    var operations := s.operations[i := left];
    Effect(s, op.instance, duty).(
    operations := if duty.CancelOthers? then CancelPending(operations, op.instance) else operations)
  }

  /** The authority rejects the order of a certificate it has not issued: the pending
      certificate is deleted. */
  function Rejected(s: State, id: string, duty: Duty): State {
    if duty.Retrieve? && id in s.instances && s.instances[id].pending.Some?
       && s.instances[id].pending.value !in s.retrieved
    then s.(instances := s.instances[id := s.instances[id].(pending := None)]) else s
  }

  /** A failing task is queued again while it has retries; then the pipeline is gone
      and the handler marks the operation, if it finds its id. */
  function Fail(s: State, i: nat, rejects: bool): State
    requires Starts(s, i)
  {
    var op := s.operations[i];
    var step := op.todo[0];
    var left :=
      if step.retries > 0 then op.(todo := op.todo[0 := step.(retries := step.retries - 1)])
      else op.(todo := [], state := if step.positional then Failed else op.state);
    (if rejects then Rejected(s, op.instance, step.duty) else s).(operations := s.operations[i := left])
  }

  function Attempt(s: State, i: nat, outcome: Outcome): State {
    if i >= |s.operations| || s.operations[i].todo == [] then s
    else if !Starts(s, i) then s.(operations := s.operations[i := s.operations[i].(todo := [])])
    else if outcome.Succeeds? then Perform(s, i)
    else Fail(s, i, outcome.Rejects?)
  }

  // ---- runs ----

  datatype Event =
    | ProvisionEvent(id: string, plan: Plan, domains: seq<string>)
    | UpdateEvent(id: string, plan: Plan, requested: seq<string>, valid: bool, accepted: bool)
    | DeprovisionEvent(id: string, plan: Plan)
    | RenewalEvent(expiring: seq<string>)
    | StalledEvent(stalled: seq<nat>)
    | AttemptEvent(op: nat, outcome: Outcome)

  const EMPTY := State(map[], [], {}, 0)

  function Next(s: State, e: Event): State {
    match e
    case ProvisionEvent(id, plan, domains) => ProvisionRequest(s, id, plan, domains)
    case UpdateEvent(id, plan, requested, valid, accepted) => UpdateRequest(s, id, plan, requested, valid, accepted)
    case DeprovisionEvent(id, plan) => DeprovisionRequest(s, id, plan)
    case RenewalEvent(expiring) => RenewalScan(s, expiring)
    case StalledEvent(stalled) => StalledScan(s, stalled)
    case AttemptEvent(op, outcome) => Attempt(s, op, outcome)
  }

  function After(s: State, events: seq<Event>): State
    decreases |events|
  {
    if events == [] then s else After(Next(s, events[0]), events[1..])
  }
}
