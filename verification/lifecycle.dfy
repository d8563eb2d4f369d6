/**
  An instance's life: it can be provisioned from nothing, whatever faults come, and
  from there renewed, with every domain served.
 */
module Lifecycle {
  import opened Wrappers
  import opened Records
  import opened Pipelines
  import opened Provisioning
  import opened ProvisioningRuns
  import opened Rotation
  import opened PhaseOrder
  import opened RotationRuns
  import opened RotationProgress
  import opened Moves
  import Operations
  import PlanQueues

  /** What provisioning leaves of the configuration and the account. */
  lemma TopIsAvailable(s0: State, s: State, kind: Kind)
    requires InUseNow(s0, s, kind, 13)
    requires Listed(s0.shared, s0.attached.Keys) && Listed(s0.dedicated, s0.attached.Keys)
    ensures Available(s) && s.domains == s0.domains
    ensures PlaceNow(s).Some? && (PlaceNow(s).value.AtDistribution? <==> ToDistribution(kind))
  {
    assert s.attached.Keys == s0.attached.Keys;
  }

  predicate RenewedBy(kind: Kind, renewal: Kind) {
    if ToDistribution(kind) then renewal.CdnRenewal? else renewal.AlbRenewal? || renewal.DedicatedRenewal?
  }

  lemma RenewalFinishes(s: State, renewal: Kind) returns (events: seq<Event>)
    requires Steady(s) && Available(s) && Renewal(renewal)
    requires PlaceNow(s).value.AtListener? <==> !renewal.CdnRenewal?
    ensures var r := Steps(Begin(s, renewal), events);
            r.todo.Finished? && Steady(r.state) && NoOutage(r.state, Domains(r.state))
  {
    assert Request(s, renewal, s.domains) == s;
    events := RotationCanFinish(s, renewal, s.domains, []);
    assert Steps(Begin(s, renewal), []) == Begin(s, renewal);
    SteadyServes(Steps(Begin(s, renewal), events).state);
  }

  lemma ProvisioningFinishes(s0: State, kind: Kind, faults: seq<Event>) returns (more: seq<Event>)
    requires New(s0) && Provisions(kind) && Placeable(s0, kind)
    requires ProvisioningRuns.UndisturbedRun(Begin(s0, kind), faults)
    ensures var r := Steps(Steps(Begin(s0, kind), faults), more);
            r.todo.Finished? && Steady(r.state) && InUseNow(s0, r.state, kind, 13)
  {
    hide New, Along;
    BeginAlong(s0, kind);
    var level, n := RunAlong(s0, Begin(s0, kind), 0, 0, faults);
    KindStays(Begin(s0, kind), faults);
    var r := Steps(Begin(s0, kind), faults);
    more := CanFinish(s0, r, level, n);
    var level', n' := RunAlong(s0, r, level, n, more);
    KindStays(r, more);
    EndOf(s0, Steps(r, more), level', n');
  }

  lemma EndOf(s0: State, r: Run, level: nat, n: nat)
    requires New(s0) && Along(s0, r, level, n) && r.todo.Finished?
    ensures InUseNow(s0, r.state, r.kind, 13) && Steady(r.state)
  {
    hide New, InUseNow, Steady;
    TopIsSteady(s0, r.state, r.kind);
  }

  /**
    From nothing to renewed. Whatever retries and restarts a new instance's
    provisioning has gone through, it can be finished; and the instance it leaves can be
    renewed, ending with every domain served.
   */
  lemma LifeOfAnInstance(s0: State, kind: Kind, faults: seq<Event>, renewal: Kind)
    returns (more: seq<Event>, renewing: seq<Event>)
    requires New(s0) && Provisions(kind) && Placeable(s0, kind)
    requires Listed(s0.shared, s0.attached.Keys) && Listed(s0.dedicated, s0.attached.Keys)
    requires ProvisioningRuns.UndisturbedRun(Begin(s0, kind), faults) && RenewedBy(kind, renewal)
    ensures var provisioned := Steps(Steps(Begin(s0, kind), faults), more);
            var renewed := Steps(Begin(provisioned.state, renewal), renewing);
            && provisioned.todo.Finished? && Steady(provisioned.state)
            && renewed.todo.Finished? && Steady(renewed.state) && NoOutage(renewed.state, Domains(renewed.state))
  {
    hide New, InUseNow, Steady, NoOutage, Listed;
    more := ProvisioningFinishes(s0, kind, faults);
    var s := Steps(Steps(Begin(s0, kind), faults), more).state;
    TopIsAvailable(s0, s, kind);
    renewing := RenewalFinishes(s, renewal);
  }

  /** There are such instances. */
  lemma ANewInstance(kind: Kind) returns (s0: State)
    requires Provisions(kind)
    ensures New(s0) && Placeable(s0, kind) && s0.domains == ["example.gov"]
    ensures forall l :: l in s0.shared ==> l !in s0.dedicated
    ensures Listed(s0.shared, s0.attached.Keys) && Listed(s0.dedicated, s0.attached.Keys)
  {
    var a, b := Listener("alb", "listener"), Listener("dedicated-alb", "dedicated-listener");
    s0 := State(["example.gov"], None, None, None, None, None, None, None, None, [], map[], {},
                map[a := {Foreign(0)}, b := {}], map[], map[], map[], {}, {}, [], [a], [b], 0, 0);
    assert Lowest([a], s0.attached) == a && Lowest([b], s0.attached) == b;
  }

  /** A steady instance on a shared listener can be moved to a dedicated one, whatever
      domains the request names. */
  lemma Movable(s0: State, s: State, domains: seq<string>)
    requires InUseNow(s0, s, AlbProvision, 13) && Steady(s) && forall l :: l in s0.shared ==> l !in s0.dedicated
    ensures Startable(s, AlbToDedicated, domains)
  {
  }

  /** A move that is asked for another domain goes through and keeps the old one. */
  lemma AMoveKeepsItsDomains() returns (s0: State, provisioning: seq<Event>, moving: seq<Event>)
    ensures New(s0)
    ensures var provisioned := Steps(Begin(s0, AlbProvision), provisioning);
            var requested := Request(provisioned.state, AlbToDedicated, ["other.gov"]);
            var moved := Steps(Begin(requested, AlbToDedicated), moving);
            && provisioned.todo.Finished? && Steady(provisioned.state)
            && moved.todo.Finished? && Steady(moved.state) && moved.state.domains == ["example.gov"]
  {
    hide New, InUseNow, Steady, NoOutage, Listed, Startable, Steps, Request;
    s0 := ANewInstance(AlbProvision);
    provisioning := ProvisioningFinishes(s0, AlbProvision, []);
    AtBegin(Begin(s0, AlbProvision));
    var s := Steps(Begin(s0, AlbProvision), provisioning).state;
    TopIsAvailable(s0, s, AlbProvision);
    Movable(s0, s, ["other.gov"]);
    var r0 := Begin(Request(s, AlbToDedicated, ["other.gov"]), AlbToDedicated);
    AtBegin(r0);
    moving := RotationCanFinish(s, AlbToDedicated, ["other.gov"], []);
    MovesKeepTheirDomains(s, AlbToDedicated, ["other.gov"], moving);
  }

  lemma AtBegin(r: Run)
    ensures Steps(r, []) == r
  {
  }

  // ---- plans and places ----

  /** Each operation is queued the pipeline that fits where its plan's instances serve:
      provisioning leads there, renewal and update start from there, and a move starts
      from the place of the plan that is left. Behind a load balancer it chooses among the
      listeners of its plan. */
  lemma QueuesFitPlans(from: Operations.Plan, to: Operations.Plan)
    ensures Provisions(Operations.ProvisionKind(to))
    ensures ToDistribution(Operations.ProvisionKind(to)) <==> Operations.OnDistribution(to)
    ensures RenewedBy(Operations.ProvisionKind(to), Operations.RenewKind(to))
    ensures if Operations.OnDistribution(to) then FromDistribution(Operations.UpdateKind(to))
            else FromListener(Operations.UpdateKind(to))
    ensures Operations.CanMove(from, to) ==>
              if Operations.OnDistribution(from) then FromDistribution(Operations.MoveKind(from, to))
              else FromListener(Operations.MoveKind(from, to))
    ensures Operations.CanMove(from, to) && Operations.OnDistribution(from) ==> Operations.OnDistribution(to)
    ensures !Operations.OnDistribution(to) ==>
              && Chooses(Operations.ProvisionKind(to), to) && Chooses(Operations.RenewKind(to), to)
              && Chooses(Operations.UpdateKind(to), to)
              && (Operations.CanMove(from, to) ==> Chooses(Operations.MoveKind(from, to), to))
  {
    hide PlanQueues.Only, TasksOf;
    PlanQueues.ProvisionTasks(to, PlanQueues.Placing);
    PlanQueues.RenewalTasks(to, PlanQueues.Placing);
    PlanQueues.UpdateTasks(to, PlanQueues.Placing);
    if Operations.CanMove(from, to) && from != to { PlanQueues.MoveTasks(from, to, PlanQueues.Placing); }
  }

  /** A pipeline of a load balancer plan chooses among the listeners of that plan, once. */
  predicate Chooses(kind: Kind, plan: Operations.Plan) {
    PlanQueues.Only(TasksOf(kind), PlanQueues.Placing)
    == [if plan.Alb? then SelectAlbTask else SelectDedicatedAlbTask]
  }

  /** So a steady instance that serves where its plan says can be renewed. */
  lemma RenewalOfPlan(s: State, plan: Operations.Plan) returns (events: seq<Event>)
    requires Steady(s) && Available(s) && (PlaceNow(s).value.AtDistribution? <==> Operations.OnDistribution(plan))
    ensures var r := Steps(Begin(s, Operations.RenewKind(plan)), events);
            r.todo.Finished? && Steady(r.state) && NoOutage(r.state, Domains(r.state))
  {
    events := RenewalFinishes(s, Operations.RenewKind(plan));
  }
}
