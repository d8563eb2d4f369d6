/**
  What requests and scans queue, and what becomes of it: every new operation is queued the
  pipeline of its instance's plan, the scans add and start again exactly what is due, and
  an operation none of whose tasks fails goes through.
 */
module OperationQueues {
  import opened Wrappers
  import opened Operations
  import opened OperationSafety
  import opened OperationResults
  import opened OperationStalls
  import opened PlanQueues
  import PlanPlaces
  import PhaseOrder
  import P = Pipelines
  import R = Records

  // ---- the renewal scan ----

  /** Ready for another operation. */
  predicate Ready(s: State, id: string) {
    id in s.instances && !s.instances[id].deactivated && !HasActive(s, id)
  }

  /** A new operation that renews its instance. */
  predicate Renews(s: State, op: Operation) {
    && Ready(s, op.instance) && op.action.Renew? && Active(op)
    && op.todo == Queue(P.TasksOf(RenewKind(s.instances[op.instance].plan)))
  }

  predicate IsFor(operations: seq<Operation>, i: nat, id: string) {
    i < |operations| && operations[i].instance == id
  }

  /** The scan adds a renewal for each expiring instance that is not deactivated and has
      no active operation, exactly one for each, and changes nothing else. */
  lemma {:induction false} ScanRenews(s: State, expiring: seq<string>)
    ensures var s' := RenewalScan(s, expiring);
            && s.operations <= s'.operations && s' == s.(operations := s'.operations)
            && (forall i :: |s.operations| <= i < |s'.operations| ==>
                  Renews(s, s'.operations[i]) && s'.operations[i].instance in expiring)
            && (forall id :: id in expiring && Ready(s, id) ==>
                  exists i :: |s.operations| <= i && IsFor(s'.operations, i, id))
            && (forall i, j :: |s.operations| <= i < j < |s'.operations| ==>
                  s'.operations[i].instance != s'.operations[j].instance)
    decreases |expiring|
  {
    if expiring != [] {
      var id := expiring[0];
      var s1 := RenewOne(s, id);
      var s' := RenewalScan(s, expiring);
      ScanRenews(s1, expiring[1..]);
      OneRenewed(s, id);
      if Ready(s, id) { assert s'.operations[|s.operations|] == s1.operations[|s.operations|]; }
      forall other | other in expiring && Ready(s, other)
        ensures exists i :: |s.operations| <= i && IsFor(s'.operations, i, other)
      {
        if other == id {
          assert IsFor(s'.operations, |s.operations|, id);
        } else {
          assert other in expiring[1..] && Ready(s1, other);
        }
      }
    }
  }

  lemma OneRenewed(s: State, id: string)
    ensures var s1 := RenewOne(s, id);
            && s1 == s.(operations := s1.operations)
            && s1.operations[..|s.operations|] == s.operations
            && (if Ready(s, id) then |s1.operations| == |s.operations| + 1 && Renews(s, s1.operations[|s.operations|])
                                   && s1.operations[|s.operations|].instance == id
                else s1 == s)
            && forall other :: Ready(s1, other) <==> Ready(s, other) && other != id
  {
    hide Queue, P.TasksOf;
    var s1 := RenewOne(s, id);
    if Ready(s, id) {
      assert Active(s1.operations[|s.operations|]);
      forall other ensures HasActive(s1, other) <==> HasActive(s, other) || other == id {
        if HasActive(s, other) {
          var i :| 0 <= i < |s.operations| && s.operations[i].instance == other && Active(s.operations[i]);
          assert s1.operations[i] == s.operations[i];
        }
      }
    }
  }

  // ---- the stalled scan ----

  /** An active operation whose instance is known. */
  predicate Known(s: State, i: nat) {
    i < |s.operations| && Active(s.operations[i]) && s.operations[i].instance in s.instances
  }

  /** Before it comes to an operation of a migrating instance, the scan gives every
      stalled operation the whole pipeline of its action and its instance's plan, and
      changes nothing else. */
  lemma {:induction false} ScanStartsAgain(s: State, stalled: seq<nat>)
    requires forall i :: i in stalled ==> !Blocks(s, i)
    ensures var s' := StalledScan(s, stalled);
            && s' == s.(operations := s'.operations) && |s'.operations| == |s.operations|
            && forall i :: 0 <= i < |s.operations| ==>
                 var op := s.operations[i];
                 s'.operations[i]
                 == if i in stalled && Known(s, i) then op.(todo := QueueFor(s.instances[op.instance].plan, op.action))
                    else op
    decreases |stalled|
  {
    hide QueueFor;
    if stalled != [] {
      var s1 := Restart(s, stalled[0]);
      assert forall i :: i in stalled <==> i == stalled[0] || i in stalled[1..];
      assert forall i :: Blocks(s1, i) <==> Blocks(s, i);
      ScanStartsAgain(s1, stalled[1..]);
    }
  }

  // ---- what is queued ----

  /** The whole pipeline for an action on an instance of the plan. */
  predicate QueuedFor(todo: seq<Step>, plan: Plan, action: Action) {
    exists kind ::
      && PlanPlaces.LeadsTo(kind, plan) && todo == Queue(P.TasksOf(kind))
      && (P.Provisions(kind) <==> action.Provision?) && (PhaseOrder.Renewal(kind) <==> action.Renew?)
  }

  lemma IsQueuedFor(kind: P.Kind, plan: Plan, action: Action)
    requires PlanPlaces.LeadsTo(kind, plan)
    requires (P.Provisions(kind) <==> action.Provision?) && (PhaseOrder.Renewal(kind) <==> action.Renew?)
    ensures QueuedFor(Queue(P.TasksOf(kind)), plan, action)
  {
  }

  lemma UpdatesLeadThere(from: Plan, to: Plan)
    requires CanMove(from, to)
    ensures PlanPlaces.LeadsTo(MoveKind(from, to), to) && PlanPlaces.LeadsTo(UpdateKind(to), to)
    ensures QueuedFor(Queue(P.TasksOf(MoveKind(from, to))), to, Update)
  {
    assert CanMove(to, to) && MoveKind(to, to) == UpdateKind(to);
    IsQueuedFor(MoveKind(from, to), to, Update);
  }

  /** The stalled scan starts the pipeline of the plan. */
  lemma QueueForFits(plan: Plan, action: Action)
    requires !action.Deprovision?
    ensures QueuedFor(QueueFor(plan, action), plan, action)
  {
    hide Queue, P.TasksOf, QueuedFor;
    match action {
      case Provision => IsQueuedFor(ProvisionKind(plan), plan, Provision);
      case Renew => IsQueuedFor(RenewKind(plan), plan, Renew);
      case Update => UpdatesLeadThere(plan, plan);
    }
  }

  /** And the runs of certificates agree: what they start again is what the scan queues. */
  lemma RestartAgrees(kind: P.Kind, plan: Plan, action: Action)
    requires PlanPlaces.LeadsTo(kind, plan) && !kind.DedicatedToCdnWaf? && !action.Deprovision?
    requires (P.Provisions(kind) <==> action.Provision?) && (PhaseOrder.Renewal(kind) <==> action.Renew?)
    ensures QueueFor(plan, action) == Queue(P.TasksOf(P.RestartKind(kind)))
  {
    hide Queue, P.TasksOf;
  }

  /** What a request or a scan adds: an active operation of its kind, with the whole
      pipeline of the plan that the instance has from then on. Only an update of a
      migrating instance has none. */
  predicate Added(s: State, s': State, e: Event, op: Operation) {
    && op.instance in s'.instances && Active(op)
    && match e
       case ProvisionEvent(id, plan, _) =>
         && op.instance == id && op.action.Provision? && s'.instances[id].plan == plan
         && QueuedFor(op.todo, plan, Provision)
       case UpdateEvent(id, plan, _, _, _) =>
         && op.instance == id && op.action.Update? && id in s.instances
         && if s.instances[id].migrating then op.todo == []
            else s'.instances[id].plan == plan && QueuedFor(op.todo, plan, Update)
       case RenewalEvent(expiring) =>
         op.instance in expiring && op.action.Renew? && QueuedFor(op.todo, s'.instances[op.instance].plan, Renew)
       case DeprovisionEvent(id, plan) =>
         op.instance == id && op.action.Deprovision? && op.todo == DeprovisionQueue(plan)
       case _ => false
  }

  lemma NewOperationsFit(s: State, e: Event, i: nat)
    requires |s.operations| <= i < |Next(s, e).operations|
    ensures Added(s, Next(s, e), e, Next(s, e).operations[i])
  {
    hide Queue, P.TasksOf, QueuedFor;
    match e {
      case ProvisionEvent(id, plan, domains) => IsQueuedFor(ProvisionKind(plan), plan, Provision);
      case UpdateEvent(id, plan, requested, valid, accepted) =>
        if id in s.instances && CanMove(s.instances[id].plan, plan) { UpdatesLeadThere(s.instances[id].plan, plan); }
      case DeprovisionEvent(id, plan) =>
      case RenewalEvent(expiring) =>
        ScanRenews(s, expiring);
        var op := Next(s, e).operations[i];
        assert Renews(s, op);
        IsQueuedFor(RenewKind(s.instances[op.instance].plan), s.instances[op.instance].plan, Renew);
      case StalledEvent(stalled) => StalledIsLong(s, stalled);
      case AttemptEvent(op, outcome) =>
    }
  }

  lemma {:induction false} StalledIsLong(s: State, stalled: seq<nat>)
    ensures |StalledScan(s, stalled).operations| == |s.operations|
    decreases |stalled|
  {
    if stalled != [] && !Blocks(s, stalled[0]) { StalledIsLong(Restart(s, stalled[0]), stalled[1..]); }
  }

  /** An update adds an operation exactly when the instance is due no other, its domains and
      parameters are accepted, the plan can be reached, and there is something to change: for
      an instance on a load balancer another plan or other domains, for a migrating one other
      domains, whatever the rest says. */
  lemma UpdateStarts(s: State, id: string, plan: Plan, requested: seq<string>, valid: bool, accepted: bool)
    ensures |UpdateRequest(s, id, plan, requested, valid, accepted).operations| > |s.operations|
       <==> && Ready(s, id) && (valid || requested == [])
            && var was := s.instances[id];
               if was.migrating then Changed(was, requested)
               else && CanMove(was.plan, plan) && (accepted || !OnDistribution(plan))
                    && (OnDistribution(plan) || plan != was.plan || Changed(was, requested))
  {
    hide Queue, P.TasksOf;
  }

  // ---- pipelines that go through ----

  /** The steps that do something to the row. */
  function NonWork(steps: seq<Step>): seq<Step>
    decreases |steps|
  {
    if steps == [] then []
    else if steps[0].duty.Work? then NonWork(steps[1..])
    else [steps[0]] + NonWork(steps[1..])
  }

  function StepsOf(tasks: seq<P.Task>): (r: seq<Step>)
    ensures |r| == |tasks| && forall i :: 0 <= i < |r| ==> r[i] == StepOf(tasks[i])
  {
    seq(|tasks|, i requires 0 <= i < |tasks| => StepOf(tasks[i]))
  }

  lemma {:induction false} WorkIsAside(s: State, id: string, steps: seq<Step>)
    ensures Smooth(s, id, steps) <==> Smooth(s, id, NonWork(steps))
    ensures EffectAll(s, id, steps) == EffectAll(s, id, NonWork(steps))
    decreases |steps|
  {
    if steps != [] {
      var s1 := Effect(s, id, steps[0].duty);
      if steps[0].duty.Work? {
        assert s1 == s && !Abandons(s, id, steps[0].duty);
      } else {
        assert NonWork(steps)[1..] == NonWork(steps[1..]);
      }
      hide Effect, Abandons;
      WorkIsAside(s1, id, steps[1..]);
    }
  }

  lemma {:induction false} DutiesOf(p: P.Pipeline)
    ensures NonWork(Queue(p)) == StepsOf(Only(p, OnDuty))
    decreases p
  {
    if p.Then? {
      DutiesOf(p.rest);
      assert Queue(p)[1..] == Queue(p.rest);
      if Is(p.task, OnDuty) {
        assert StepsOf([p.task] + Only(p.rest, OnDuty)) == [StepOf(p.task)] + StepsOf(Only(p.rest, OnDuty));
      }
    }
  }

  lemma {:induction false} NonWorkLast(steps: seq<Step>, last: Step)
    requires !last.duty.Work?
    ensures NonWork(steps + [last]) == NonWork(steps) + [last]
    decreases |steps|
  {
    if steps == [] {
      assert [last][1..] == [];
    } else {
      assert (steps + [last])[1..] == steps[1..] + [last];
      NonWorkLast(steps[1..], last);
    }
  }

  predicate Creates(kind: P.Kind) {
    P.ToDistribution(kind) || kind.DedicatedToCdnWaf?
  }

  /** The row of an instance whose pipeline went through. */
  function Through(i: Instance, kind: P.Kind, next: nat): Instance {
    i.(current := Some(if i.pending.Some? then i.pending.value else next), pending := None,
       distribution := i.distribution || Creates(kind), migrating := i.migrating && !kind.DedicatedToCdnWaf?)
  }

  /** The tasks that change the row: a key, the retrieval, the promotion and the end. */
  predicate Usual(kind: P.Kind, d: seq<P.Task>) {
    && |d| == (if kind.DedicatedToCdnWaf? then 5 else 4)
    && d[0].GenerateKeyTask? && d[1].RetrieveCertificateTask?
    && (if Creates(kind) then DutyOf(d[2]).Distribute? else DutyOf(d[2]).Promote?)
    && (kind.DedicatedToCdnWaf? ==> DutyOf(d[3]).ChangeType?)
    && DutyOf(d[|d| - 1]).Complete?
  }

  lemma DutiesOfFirst(kind: P.Kind)
    requires P.Provisions(kind) || PhaseOrder.Renewal(kind)
    ensures Usual(kind, Only(P.TasksOf(kind), OnDuty))
  {
    hide Only, P.TasksOf;
    match kind {
      case AlbProvision => ProvisionTasks(Alb, OnDuty);
      case DedicatedProvision => ProvisionTasks(DedicatedAlb, OnDuty);
      case CdnProvision => ProvisionTasks(Cdn, OnDuty);
      case CdnWafProvision => ProvisionTasks(CdnWaf, OnDuty);
      case AlbRenewal => RenewalTasks(Alb, OnDuty);
      case DedicatedRenewal => RenewalTasks(DedicatedAlb, OnDuty);
      case CdnRenewal => RenewalTasks(Cdn, OnDuty);
    }
  }

  lemma DutiesOfUpdate(kind: P.Kind)
    requires !P.Provisions(kind) && !PhaseOrder.Renewal(kind) && !kind.AlbToDedicated?
    ensures Usual(kind, Only(P.TasksOf(kind), OnDuty))
  {
    hide Only, P.TasksOf;
    match kind {
      case AlbUpdate => UpdateTasks(Alb, OnDuty);
      case DedicatedUpdate => UpdateTasks(DedicatedAlb, OnDuty);
      case CdnUpdate => UpdateTasks(Cdn, OnDuty);
      case CdnWafUpdate => UpdateTasks(CdnWaf, OnDuty);
      case DedicatedToCdnWaf => MoveTasks(DedicatedAlb, CdnWaf, OnDuty);
      case CdnToCdnWaf => MoveTasks(Cdn, CdnWaf, OnDuty);
    }
  }

  /** What the pipeline needs of the row: a certificate to promote, which all but the move
      to a dedicated load balancer obtain, and no distribution where one is created. */
  predicate Able(i: Instance, kind: P.Kind) {
    (kind.AlbToDedicated? ==> i.pending.Some?) && (Creates(kind) ==> !i.distribution)
  }

  function PendingNow(s: State, i: Instance): nat {
    if i.pending.Some? then i.pending.value else s.nextCertificate
  }

  /** A key and the retrieval leave a certificate pending. */
  lemma Issued(s: State, id: string)
    requires id in s.instances
    ensures var s1 := Effect(s, id, MakeKey);
            && !Abandons(s1, id, Retrieve)
            && Effect(s1, id, Retrieve).instances
               == s.instances[id := s.instances[id].(pending := Some(PendingNow(s, s.instances[id])))]
  {
    if s.instances[id].pending.Some? { assert s.instances[id := s.instances[id]] == s.instances; }
  }

  lemma Placed(s: State, id: string, duty: Duty)
    requires id in s.instances && s.instances[id].pending.Some?
    requires duty.Promote? || (duty.Distribute? && !s.instances[id].distribution)
    ensures var i := s.instances[id];
            Effect(s, id, duty).instances
            == s.instances[id := i.(current := i.pending, pending := None,
                                    distribution := i.distribution || duty.Distribute?)]
  {
  }

  lemma Settled(s: State, id: string)
    requires id in s.instances
    ensures Effect(s, id, ChangeType).instances == s.instances[id := s.instances[id].(migrating := false)]
  {
  }

  /** The state after the key, the retrieval, the promotion and the change of type. */
  lemma {:induction false} EffectsOf(s: State, id: string, steps: seq<Step>)
    requires |steps| >= 3 && steps[0].duty.MakeKey? && steps[1].duty.Retrieve?
    requires steps[2].duty.Promote? || steps[2].duty.Distribute?
    requires !Abandons(Effect(s, id, MakeKey), id, Retrieve)
    requires |steps| == 3 || (|steps| == 4 && steps[3].duty.ChangeType?)
    ensures var s3 := Effect(Effect(Effect(s, id, MakeKey), id, Retrieve), id, steps[2].duty);
            && Smooth(s, id, steps)
            && EffectAll(s, id, steps) == if |steps| == 3 then s3 else Effect(s3, id, ChangeType)
  {
    var s1 := Effect(s, id, MakeKey);
    var s2 := Effect(s1, id, Retrieve);
    var s3 := Effect(s2, id, steps[2].duty);
    hide Effect;
    if |steps| == 4 {
      assert steps[3..][1..] == [];
      assert EffectAll(s3, id, steps[3..]) == EffectAll(Effect(s3, id, ChangeType), id, []);
    } else {
      assert steps[3..] == [];
    }
    assert Smooth(s3, id, steps[3..]);
    assert steps[2..][1..] == steps[3..] && steps[1..][1..] == steps[2..];
    assert Smooth(s2, id, steps[2..]) && EffectAll(s2, id, steps[2..]) == EffectAll(s3, id, steps[3..]);
    assert Smooth(s1, id, steps[1..]) && EffectAll(s1, id, steps[1..]) == EffectAll(s3, id, steps[3..]);
  }

  /** Such tasks, but the last, take the row all the way. */
  lemma UsualIsSmooth(s: State, id: string, kind: P.Kind, d: seq<P.Task>)
    requires Usual(kind, d) && id in s.instances && Able(s.instances[id], kind) && !kind.AlbToDedicated?
    ensures var steps := StepsOf(d)[..|d| - 1];
            && Smooth(s, id, steps)
            && EffectAll(s, id, steps).instances
               == s.instances[id := Through(s.instances[id], kind, s.nextCertificate)]
  {
    hide Effect, EffectAll, Smooth, Abandons, Through;
    var steps := StepsOf(d)[..|d| - 1];
    var i := s.instances[id];
    Issued(s, id);
    EffectsOf(s, id, steps);
    var s2 := Effect(Effect(s, id, MakeKey), id, Retrieve);
    Placed(s2, id, steps[2].duty);
    var s3 := Effect(s2, id, steps[2].duty);
    if kind.DedicatedToCdnWaf? { Settled(s3, id); }
    ThroughIs(s, i, kind);
    assert s.instances[id := s2.instances[id]][id := s3.instances[id]] == s.instances[id := s3.instances[id]];
  }

  lemma ThroughIs(s: State, i: Instance, kind: P.Kind)
    requires Able(i, kind)
    ensures Through(i, kind, s.nextCertificate)
         == i.(current := Some(PendingNow(s, i)), pending := None, distribution := i.distribution || Creates(kind),
               migrating := i.migrating && !kind.DedicatedToCdnWaf?)
  {
  }

  lemma MoveIsSmooth(s: State, id: string)
    requires id in s.instances && s.instances[id].pending.Some?
    ensures var steps := StepsOf([P.AddCertificateToAlbTask, P.ProvisionTask])[..1];
            && Smooth(s, id, steps)
            && EffectAll(s, id, steps).instances
               == s.instances[id := Through(s.instances[id], P.AlbToDedicated, s.nextCertificate)]
  {
    var steps := StepsOf([P.AddCertificateToAlbTask, P.ProvisionTask])[..1];
    assert steps[1..] == [];
    assert EffectAll(s, id, steps) == Effect(s, id, Promote);
  }

  lemma DutiesAreSmooth(s: State, id: string, kind: P.Kind)
    requires id in s.instances && Able(s.instances[id], kind)
    ensures var d := StepsOf(Only(P.TasksOf(kind), OnDuty));
            && d != [] && !d[|d| - 1].duty.Work?
            && Smooth(s, id, d[..|d| - 1])
            && EffectAll(s, id, d[..|d| - 1]).instances
               == s.instances[id := Through(s.instances[id], kind, s.nextCertificate)]
  {
    hide P.TasksOf, Only, EffectAll, Smooth, Through;
    if kind.AlbToDedicated? {
      MoveTasks(Alb, DedicatedAlb, OnDuty);
      MoveIsSmooth(s, id);
    } else {
      if P.Provisions(kind) || PhaseOrder.Renewal(kind) { DutiesOfFirst(kind); } else { DutiesOfUpdate(kind); }
      UsualIsSmooth(s, id, kind, Only(P.TasksOf(kind), OnDuty));
    }
  }

  /** The queue but its last step does what those tasks do. */
  lemma QueueIsSmooth(s: State, id: string, kind: P.Kind, action: Action)
    requires id in s.instances && Able(s.instances[id], kind) && !action.Deprovision?
    ensures var todo := Queue(P.TasksOf(kind));
            && todo != [] && todo[|todo| - 1].duty.Complete?
            && Smooth(s, id, todo[..|todo| - 1])
            && EffectAll(s, id, todo[..|todo| - 1]).instances
               == s.instances[id := Through(s.instances[id], kind, s.nextCertificate)]
  {
    hide Queue, P.TasksOf, EffectAll, Smooth, Through, Only;
    var todo := Queue(P.TasksOf(kind));
    KindIsShaped(kind, action);
    var n := |todo| - 1;
    DutiesAreSmooth(s, id, kind);
    DutiesOf(P.TasksOf(kind));
    assert todo[..n] + [todo[n]] == todo;
    NonWorkLast(todo[..n], todo[n]);
    var d := StepsOf(Only(P.TasksOf(kind), OnDuty));
    assert NonWork(todo[..n]) == d[..|d| - 1];
    WorkIsAside(s, id, todo[..n]);
  }

  /**
    An operation none of whose tasks fails goes through: it has succeeded, nothing is
    queued, and its instance has the pending certificate as the current one, none pending,
    a distribution if the pipeline made one, and the type of its plan.
   */
  lemma GoesThrough(s: State, i: nat, kind: P.Kind)
    requires i < |s.operations| && Active(s.operations[i]) && !s.operations[i].action.Deprovision?
    requires s.operations[i].todo == Queue(P.TasksOf(kind))
    requires s.operations[i].instance in s.instances && Able(s.instances[s.operations[i].instance], kind)
    ensures var op := s.operations[i];
            var s' := After(s, Successes(i, |op.todo|));
            && s'.operations == s.operations[i := op.(todo := [], state := Succeeded)]
            && s'.instances
               == s.instances[op.instance := Through(s.instances[op.instance], kind, s.nextCertificate)]
  {
    hide Queue, P.TasksOf, Smooth, EffectAll, After, Through, Able;
    var op := s.operations[i];
    var n := |op.todo| - 1;
    QueueIsSmooth(s, op.instance, kind, op.action);
    Worked(s, i, n);
    LastSettles(After(s, Successes(i, n)), i);
    assert Successes(i, n) + [AttemptEvent(i, Succeeds)] == Successes(i, n + 1);
    Concatenated(s, Successes(i, n), [AttemptEvent(i, Succeeds)]);
    assert s.operations[i := op.(todo := op.todo[n..])][i := op.(todo := [], state := Succeeded)]
        == s.operations[i := op.(todo := [], state := Succeeded)];
  }

  lemma LastSettles(s: State, i: nat)
    requires i < |s.operations| && Active(s.operations[i])
    requires |s.operations[i].todo| == 1 && s.operations[i].todo[0].duty.Complete?
    ensures var op := s.operations[i];
            After(s, [AttemptEvent(i, Succeeds)])
            == s.(operations := s.operations[i := op.(todo := [], state := Succeeded)])
  {
    AfterOne(s, AttemptEvent(i, Succeeds));
    assert s.operations[i].todo[1..] == [];
  }

  /** The others of the instance that the cancellation is for. */
  predicate Cancels(op: Operation, id: string) {
    op.instance == id && !op.action.Deprovision? && op.state.InProgress?
  }

  /** A deprovision none of whose tasks fails has deactivated its instance and canceled
      exactly the instance's other operations in progress that are not deprovisions. */
  lemma DeprovisionGoesThrough(s: State, i: nat, plan: Plan)
    requires i < |s.operations| && Active(s.operations[i]) && s.operations[i].action.Deprovision?
    requires s.operations[i].todo == DeprovisionQueue(plan) && s.operations[i].instance in s.instances
    ensures var op := s.operations[i];
            var s' := After(s, Successes(i, |op.todo|));
            && s'.instances
               == s.instances[op.instance := s.instances[op.instance].(deactivated := true)]
            && |s'.operations| == |s.operations|
            && s'.operations[i] == op.(todo := [], state := Succeeded)
            && forall j :: 0 <= j < |s.operations| && j != i ==>
                 s'.operations[j].canceled == (s.operations[j].canceled || Cancels(s.operations[j], op.instance))
                 && s'.operations[j] == s.operations[j].(canceled := s'.operations[j].canceled)
  {
    var op := s.operations[i];
    var n := |op.todo|;
    DeprovisionShape(plan);
    var s1 := Next(s, AttemptEvent(i, Succeeds));
    var op1 := op.(todo := op.todo[1..]);
    CancelsFirst(s, i);
    hide DeprovisionQueue, After, Next;
    WorkChangesNothing(s1, op.instance, op1.todo[..n - 2]);
    Worked(s1, i, n - 2);
    var s2 := After(s1, Successes(i, n - 2));
    assert s1.operations[i := op1.(todo := op1.todo[n - 2..])] == s2.operations;
    assert s2.instances == s.instances;
    DeactivatesLast(s2, i);
    Concatenated(s1, Successes(i, n - 2), [AttemptEvent(i, Succeeds)]);
    Concatenated(s, [AttemptEvent(i, Succeeds)], Successes(i, n - 2) + [AttemptEvent(i, Succeeds)]);
    assert [AttemptEvent(i, Succeeds)] + (Successes(i, n - 2) + [AttemptEvent(i, Succeeds)]) == Successes(i, n);
    AfterOne(s, AttemptEvent(i, Succeeds));
  }

  lemma AfterOne(s: State, e: Event)
    ensures After(s, [e]) == Next(s, e)
  {
    assert After(s, [e]) == After(Next(s, e), [][..]);
  }

  /** It cancels first, deactivates last, and does nothing to rows in between. */
  lemma DeprovisionShape(plan: Plan)
    ensures var q := DeprovisionQueue(plan);
            && |q| > 2 && q[0].duty.CancelOthers? && q[|q| - 1].duty.Deactivate?
            && forall k :: 0 < k < |q| - 1 ==> q[k].duty.Work?
  {
  }

  lemma CancelsFirst(s: State, i: nat)
    requires i < |s.operations| && Active(s.operations[i]) && s.operations[i].action.Deprovision?
    requires s.operations[i].todo != [] && s.operations[i].todo[0].duty.CancelOthers?
    ensures var op := s.operations[i];
            var s' := Next(s, AttemptEvent(i, Succeeds));
            && s'.instances == s.instances && |s'.operations| == |s.operations|
            && s'.operations[i] == op.(todo := op.todo[1..])
            && forall j :: 0 <= j < |s.operations| && j != i ==>
                 s'.operations[j]
                 == s.operations[j].(canceled := s.operations[j].canceled || Cancels(s.operations[j], op.instance))
  {
    var op := s.operations[i];
    var mid := s.operations[i := op.(todo := op.todo[1..])];
    assert Next(s, AttemptEvent(i, Succeeds)).operations == CancelPending(mid, op.instance);
  }

  lemma DeactivatesLast(s: State, i: nat)
    requires i < |s.operations| && Active(s.operations[i]) && s.operations[i].instance in s.instances
    requires |s.operations[i].todo| == 1 && s.operations[i].todo[0].duty.Deactivate?
    ensures var op := s.operations[i];
            After(s, [AttemptEvent(i, Succeeds)])
            == s.(instances := s.instances[op.instance := s.instances[op.instance].(deactivated := true)],
                  operations := s.operations[i := op.(todo := [], state := Succeeded)])
  {
    AfterOne(s, AttemptEvent(i, Succeeds));
    assert s.operations[i].todo[1..] == [];
  }
}
