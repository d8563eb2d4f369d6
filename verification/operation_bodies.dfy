/**
  The requests, scans and tasks of module Operations as they work on the database:
  rows changed in place, loops over an instance's operations. Each is proved to do
  what its function says.
 */
module OperationBodies {
  import opened Operations
  import opened Strings
  import opened Wrappers
  import P = Pipelines

  class Database {
    var instances: map<string, Instance>
    var operations: seq<Operation>
    var retrieved: set<nat>
    var nextCertificate: nat

    constructor ()
      ensures Snapshot() == EMPTY
    {
      instances, operations, retrieved, nextCertificate := map[], [], {}, 0;
    }

    function Snapshot(): State
      reads this
    {
      State(instances, operations, retrieved, nextCertificate)
    }

    /** Loop over the operations until an active one of the instance is found. */
    method HasActiveOperations(id: string) returns (active: bool)
      ensures active <==> HasActive(Snapshot(), id)
    {
      var i := 0;
      while i < |operations|
        invariant 0 <= i <= |operations|
        invariant forall j :: 0 <= j < i && operations[j].instance == id ==> !Active(operations[j])
      {
        if operations[i].instance == id && operations[i].state.InProgress? && !operations[i].canceled { return true; }
        i := i + 1;
      }
      active := false;
    }

    method AddOperation(op: Operation)
      modifies `operations
      ensures operations == old(operations) + [op]
    {
      operations := operations + [op];
    }

    // ---- broker/api.py ----

    method ProvisionRequest(id: string, plan: Plan, domains: seq<string>) returns (ok: bool)
      modifies this
      ensures Snapshot() == Operations.ProvisionRequest(old(Snapshot()), id, plan, domains)
      ensures ok <==> id !in old(instances)
    {
      if id in instances { return false; }
      instances := instances[id := Instance(plan, domains, None, None, false, false, false)];
      AddOperation(New(id, Provision, Queue(P.TasksOf(ProvisionKind(plan)))));
      ok := true;
    }

    /** None when the request names no domains, or the ones there are. */
    method DomainChanges(id: string, requested: seq<string>) returns (toApply: seq<string>)
      requires id in instances
      ensures toApply == if Changed(instances[id], requested) then requested else []
    {
      if requested != [] {
        SortedAlike(requested, instances[id].domains);
        if Sorted(requested) == Sorted(instances[id].domains) { return []; }
      }
      toApply := requested;
    }

    /** A textual update of the row, after which the session is emptied: what was
        assigned to the instance and not committed is gone. */
    method ChangeInstanceType(id: string, plan: Plan, migrating: bool)
      requires id in instances
      modifies `instances
      ensures instances == old(instances)[id := old(instances)[id].(plan := plan, migrating := migrating)]
    {
      instances := instances[id := instances[id].(plan := plan, migrating := migrating)];
    }

    /** The first assignments, to the row as the session holds it. */
    method TakeOver(id: string, requested: seq<string>) returns (instance: Instance, noop: bool)
      requires id in instances
      ensures instance == Asked(instances[id], requested)
      ensures instance.plan == instances[id].plan && instance.migrating == instances[id].migrating
      ensures noop <==> !Changed(instances[id], requested)
    {
      var toApply := DomainChanges(id, requested);
      instance := instances[id];
      if toApply != [] { instance := instance.(domains := toApply); }
      if OnDistribution(instance.plan) && toApply == [] { instance := instance.(pending := instance.current); }
      noop := toApply == [];
    }

    /** Commit the row together with a new operation. */
    method StartUpdate(id: string, instance: Instance, todo: seq<Step>)
      modifies `instances, `operations
      ensures instances == old(instances)[id := instance]
      ensures operations == old(operations) + [New(id, Update, todo)]
    {
      instances := instances[id := instance];
      AddOperation(New(id, Update, todo));
    }

    /** `instance` is the row as the session holds it, the map what is committed. */
    method UpdateRequest(id: string, plan: Plan, requested: seq<string>, valid: bool, accepted: bool)
      returns (ok: bool)
      modifies this
      ensures Snapshot() == Operations.UpdateRequest(old(Snapshot()), id, plan, requested, valid, accepted)
      ensures ok ==> id in old(instances) && !old(instances)[id].deactivated && !HasActive(old(Snapshot()), id)
    {
      hide Queue, P.TasksOf, MoveKind, Changed, Asked, HasActive;
      if id !in instances || instances[id].deactivated { return false; }
      var active := HasActiveOperations(id);
      if active || (requested != [] && !valid) { return false; }
      var instance, noop := TakeOver(id, requested);
      var was := instance.plan;
      if instance.migrating {
        if !noop {
          StartUpdate(id, instance, []);
          return false;
        }
        return true;
      }
      if !CanMove(was, plan) { return false; }
      if OnDistribution(was) {
        noop := false;
        if was != plan {
          instances := instances[id := instance];
          if !accepted { return false; }
          ChangeInstanceType(id, plan, false);
          instance := instances[id];
        } else if !accepted {
          return false;
        }
      } else if was != plan {
        if OnDistribution(plan) && !accepted { return false; }
        ChangeInstanceType(id, plan, OnDistribution(plan));
        instance := instances[id];
        if plan.DedicatedAlb? { instance := instance.(pending := instance.current); }
        noop := false;
      }
      if !noop { StartUpdate(id, instance, Queue(P.TasksOf(MoveKind(was, plan)))); }
      ok := true;
    }

    method DeprovisionRequest(id: string, plan: Plan) returns (ok: bool)
      modifies this
      ensures Snapshot() == Operations.DeprovisionRequest(old(Snapshot()), id, plan)
      ensures ok <==> id in old(instances)
    {
      if id !in instances { return false; }
      AddOperation(New(id, Deprovision, DeprovisionQueue(plan)));
      ok := true;
    }

    // ---- broker/tasks/cron.py ----

    method ScanForExpiringCerts(expiring: seq<string>) returns (renewed: seq<string>)
      modifies `operations
      ensures Snapshot() == RenewalScan(old(Snapshot()), expiring)
      ensures |operations| == |old(operations)| + |renewed|
    {
      renewed := [];
      var i := 0;
      while i < |expiring|
        invariant 0 <= i <= |expiring| && |operations| == |old(operations)| + |renewed|
        invariant instances == old(instances)
        invariant RenewalScan(Snapshot(), expiring[i..]) == RenewalScan(old(Snapshot()), expiring)
      {
        var id := expiring[i];
        ghost var s := Snapshot();
        assert expiring[i..][1..] == expiring[i + 1..];
        if id in instances && !instances[id].deactivated {
          var active := HasActiveOperations(id);
          if !active {
            AddOperation(New(id, Renew, Queue(P.TasksOf(RenewKind(instances[id].plan)))));
            renewed := renewed + [id];
          }
        }
        assert Snapshot() == RenewOne(s, id);
        i := i + 1;
      }
    }

    /** `idle[i]` says that nothing has touched operation i for a while. */
    method ScanForStalledPipelines(idle: seq<bool>) returns (stalled: seq<nat>)
      requires |idle| == |operations|
      ensures forall i: nat :: i in stalled <==> i < |operations| && idle[i] && Active(operations[i])
      ensures forall a, b :: 0 <= a < b < |stalled| ==> stalled[a] < stalled[b]
    {
      stalled := [];
      var i: nat := 0;
      while i < |operations|
        invariant 0 <= i <= |operations|
        invariant forall k: nat :: k in stalled <==> k < i && idle[k] && Active(operations[k])
        invariant forall a, b :: 0 <= a < b < |stalled| ==> stalled[a] < stalled[b]
        invariant forall a :: 0 <= a < |stalled| ==> stalled[a] < i
      {
        if operations[i].state.InProgress? && idle[i] && !operations[i].canceled { stalled := stalled + [i]; }
        i := i + 1;
      }
    }

    method RescheduleOperation(i: nat)
      requires i < |operations| && Active(operations[i]) && operations[i].instance in instances
      modifies `operations
      ensures Snapshot() == Restart(old(Snapshot()), i)
    {
      var op := operations[i];
      operations := operations[i := op.(todo := QueueFor(instances[op.instance].plan, op.action))];
    }

    // ---- broker/tasks/update_operations.py ----

    /** Loop over the operations of the instance, canceling those in progress that
        are not deprovisions. */
    method CancelPendingProvisioning(id: string)
      modifies `operations
      ensures operations == CancelPending(old(operations), id)
    {
      var i := 0;
      while i < |operations|
        invariant 0 <= i <= |operations| == |old(operations)|
        invariant forall j :: 0 <= j < i ==> operations[j] == CancelOne(old(operations)[j], id)
        invariant forall j :: i <= j < |operations| ==> operations[j] == old(operations)[j]
      {
        var op := operations[i];
        if op.instance == id && !op.action.Deprovision? && op.state.InProgress? {
          operations := operations[i := op.(canceled := true)];
        }
        i := i + 1;
      }
    }

    method Deactivate(id: string)
      modifies `instances
      ensures instances == if id in old(instances) then old(instances)[id := old(instances)[id].(deactivated := true)]
                           else old(instances)
    {
      if id in instances { instances := instances[id := instances[id].(deactivated := true)]; }
    }

    /** The part of the body of a task that its instance and certificates know of. */
    method TouchInstance(id: string, duty: Duty)
      modifies `instances, `retrieved, `nextCertificate
      ensures Snapshot() == Effect(old(Snapshot()), id, duty)
    {
      if id !in instances { return; }
      var i := instances[id];
      match duty {
        case MakeKey =>
          if i.pending.Some? { return; }
          instances := instances[id := i.(pending := Some(nextCertificate))];
          nextCertificate := nextCertificate + 1;
        case Retrieve =>
          if i.pending.Some? { retrieved := retrieved + {i.pending.value}; }
        case Promote =>
          instances := instances[id := Promoted(i)];
        case Distribute =>
          if i.distribution { return; }
          instances := instances[id := Promoted(i).(distribution := true)];
        case ChangeType =>
          ChangeInstanceType(id, i.plan, false);
        case Deactivate =>
          Deactivate(id);
        case _ =>
      }
    }

    /** The body of the task at the head of operation i's pipeline, when it does not
        raise an error: a retrieval without a pending certificate cancels itself. */
    method RunBody(i: nat)
      requires Starts(Snapshot(), i)
      modifies this
      ensures Snapshot() == Perform(old(Snapshot()), i)
    {
      var op := operations[i];
      var duty := op.todo[0].duty;
      if duty.Retrieve? && op.instance in instances && instances[op.instance].pending.None? {
        operations := operations[i := op.(todo := [])];
        return;
      }
      TouchInstance(op.instance, duty);
      var next := op.(todo := op.todo[1..]);
      if duty.Complete? || duty.Deactivate? { next := next.(state := Succeeded); }
      operations := operations[i := next];
      if duty.CancelOthers? { CancelPendingProvisioning(op.instance); }
    }

    /** The way of the retrieval with an order that is not valid: the pending
        certificate goes before the error is raised again. */
    method ForgetRejectedOrder(id: string, duty: Duty)
      modifies `instances
      ensures Snapshot() == Rejected(old(Snapshot()), id, duty)
    {
      if duty.Retrieve? && id in instances {
        var i := instances[id];
        if i.pending.Some? && i.pending.value !in retrieved { instances := instances[id := i.(pending := None)]; }
      }
    }

    // ---- broker/tasks/huey.py ----

    /** The worker's way with a task that raised, and the handler it signals. */
    method HandleError(i: nat)
      requires Starts(Snapshot(), i)
      modifies `operations
      ensures Snapshot() == Fail(old(Snapshot()), i, false)
    {
      var op := operations[i];
      var task := op.todo[0];
      if task.retries > 0 {
        operations := operations[i := op.(todo := op.todo[0 := task.(retries := task.retries - 1)])];
      } else if task.positional {
        operations := operations[i := op.(todo := [], state := Failed)];
      } else {
        operations := operations[i := op.(todo := [])];
      }
    }

    /** Pick up a task: the pre-execute hook drops a canceled operation's pipeline. */
    method RunTask(i: nat, outcome: Outcome)
      modifies this
      ensures Snapshot() == Attempt(old(Snapshot()), i, outcome)
    {
      if i >= |operations| || operations[i].todo == [] { return; }
      if operations[i].todo[0].positional && operations[i].canceled {
        operations := operations[i := operations[i].(todo := [])];
      } else if outcome.Succeeds? {
        RunBody(i);
      } else {
        if outcome.Rejects? { ForgetRejectedOrder(operations[i].instance, operations[i].todo[0].duty); }
        HandleError(i);
      }
    }
  }
}
