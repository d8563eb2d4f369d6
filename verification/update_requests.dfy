/**
  What an update request does to the domains of its instance: a request that goes
  through applies them, unless it moves the instance off a load balancer's plan; one
  that is refused changes nothing, unless it moves the instance between distributions.
 */
module UpdateRequests {
  import opened Wrappers
  import opened Operations
  import opened OperationResults
  import opened OperationStalls
  import opened OperationQueues
  import P = Pipelines
  import R = Records
  import RotationRuns

  /** A request that starts an operation leaves the row with the domains it names exactly
      when they are the ones it had, or the plan change does not forget them. */
  lemma RequestApplies(s: State, id: string, plan: Plan, requested: seq<string>, valid: bool, accepted: bool)
    requires requested != []
    requires UpdateRequest(s, id, plan, requested, valid, accepted).operations != s.operations
    ensures var was, becomes := s.instances[id], UpdateRequest(s, id, plan, requested, valid, accepted).instances[id];
            && (becomes.plan == plan || was.migrating)
            && (R.SameDomains(becomes.domains, requested)
                <==> (R.SameDomains(requested, was.domains) || was.migrating || !Forgets(was.plan, plan)))
  {
  }

  /** A request that starts no operation still changes the database exactly when it moves
      an instance from one distribution plan to the other, the domains it names are
      accepted, if it names any, and the parameters are not, and the row so far differs:
      it has new domains, or keeps them and has another certificate than the current one
      for the new one, or none. */
  lemma RefusalChanges(s: State, id: string, plan: Plan, requested: seq<string>, valid: bool, accepted: bool)
    requires UpdateRequest(s, id, plan, requested, valid, accepted).operations == s.operations
    ensures UpdateRequest(s, id, plan, requested, valid, accepted) != s <==>
              (Ready(s, id) && !s.instances[id].migrating && s.instances[id].plan.Cdn? && plan.CdnWaf?
               && (requested == [] || valid) && !accepted
               && (Changed(s.instances[id], requested) || s.instances[id].pending != s.instances[id].current))
  {
    var s' := UpdateRequest(s, id, plan, requested, valid, accepted);
    if Ready(s, id) && s.instances[id].plan.Cdn? && plan.CdnWaf? && !accepted && (requested == [] || valid)
       && !s.instances[id].migrating {
      assert s'.instances[id] == Asked(s.instances[id], requested);
      assert s.instances[id := s.instances[id]] == s.instances;
    }
  }

  /** Then, if the domains were kept, the instance is left to use its certificate again. */
  lemma RefusalLeavesTheCertificate(s: State, id: string, requested: seq<string>, valid: bool)
    requires Ready(s, id) && !s.instances[id].migrating && s.instances[id].plan.Cdn?
    requires requested == [] || (valid && R.SameDomains(requested, s.instances[id].domains))
    ensures var s' := UpdateRequest(s, id, CdnWaf, requested, valid, false);
            s' == s.(instances := s.instances[id := s.instances[id].(pending := s.instances[id].current)])
  {
  }

  /** And then no pipeline makes a key for it until that certificate is promoted again. */
  lemma NoKeyIsMade(s: State, id: string)
    requires id in s.instances && s.instances[id].pending.Some?
    ensures Effect(s, id, MakeKey) == s
  {
  }

  // ---- instances between a load balancer and a distribution ----

  /** Every update of a migrating instance is a no-op, or is left stuck from the start. */
  lemma MigratingUpdatesAreStuck(s: State, id: string, plan: Plan, requested: seq<string>, valid: bool, accepted: bool)
    requires id in s.instances && s.instances[id].migrating
    ensures var s' := UpdateRequest(s, id, plan, requested, valid, accepted);
            && s'.instances[id].migrating && s'.instances[id].plan == s.instances[id].plan
            && (s' == s || (|s'.operations| == |s.operations| + 1 && Stuck(s'.operations[|s.operations|])))
  {
  }

  /** The scan ends at the first operation of a migrating instance: neither it nor those
      after it are started. */
  lemma {:induction false} ScanEndsAtAMove(s: State, before: seq<nat>, i: nat, after: seq<nat>)
    requires Blocks(s, i)
    ensures StalledScan(s, before + [i] + after) == StalledScan(s, before)
    decreases |before|
  {
    var all := before + [i] + after;
    if before == [] {
      assert all[0] == i;
    } else {
      assert all[0] == before[0] && all[1..] == before[1..] + [i] + after;
      if !Blocks(s, before[0]) { ScanEndsAtAMove(Restart(s, before[0]), before[1..], i, after); }
    }
  }

  // ---- a provisioning that goes through ----

  /** The certificate that was pending is the current one. */
  predicate InUse(s: State, id: string, c: nat) {
    id in s.instances && s.instances[id].current == Some(c) && s.instances[id].pending.None?
  }

  lemma ProvisionStarts(id: string, plan: Plan, domains: seq<string>)
    ensures var s := Next(EMPTY, ProvisionEvent(id, plan, domains));
            && s.operations == [New(id, Provision, Queue(P.TasksOf(ProvisionKind(plan))))]
            && s.nextCertificate == 0
            && s.instances == map[id := Instance(plan, domains, None, None, false, false, false)]
  {
    hide Queue, P.TasksOf, ProvisionKind;
  }

  /** A provisioning that goes through. */
  lemma ProvisionGoesThrough(id: string, plan: Plan, domains: seq<string>) returns (events: seq<Event>)
    ensures var s := After(EMPTY, events);
            && Ready(s, id) && s.instances[id].plan == plan && s.instances[id].domains == domains
            && !s.instances[id].migrating && InUse(s, id, 0)
  {
    hide Queue, P.TasksOf, After, Successes, Next;
    var e := ProvisionEvent(id, plan, domains);
    var s := Next(EMPTY, e);
    ProvisionStarts(id, plan, domains);
    GoesThrough(s, 0, ProvisionKind(plan));
    AfterOne(EMPTY, e);
    events := [e] + Successes(0, |s.operations[0].todo|);
    Concatenated(EMPTY, [e], Successes(0, |s.operations[0].todo|));
  }

  // ---- an update that goes through ----

  /** The request is to use the current certificate again. */
  predicate Reuses(was: Instance, plan: Plan, requested: seq<string>) {
    (was.plan.Alb? && plan.DedicatedAlb?) || (OnDistribution(was.plan) && !Changed(was, requested))
  }

  /** The domains that the request leaves. */
  function DomainsAfter(was: Instance, plan: Plan, requested: seq<string>): seq<string> {
    if Changed(was, requested) && !Forgets(was.plan, plan) then requested else was.domains
  }

  /** What a request that starts an operation has done to the row. */
  lemma RequestRow(s: State, id: string, plan: Plan, requested: seq<string>, valid: bool, accepted: bool)
    requires |UpdateRequest(s, id, plan, requested, valid, accepted).operations| > |s.operations|
    requires !s.instances[id].migrating
    ensures var s', was := UpdateRequest(s, id, plan, requested, valid, accepted), s.instances[id];
            && s' == s.(instances := s'.instances, operations := s'.operations)
            && s'.operations == s.operations + [s'.operations[|s.operations|]]
            && s'.instances
               == s.instances[id := was.(plan := plan, domains := DomainsAfter(was, plan, requested),
                                         pending := if Reuses(was, plan, requested) then was.current else was.pending,
                                         migrating := was.plan.DedicatedAlb? && plan.CdnWaf?)]
  {
    hide Queue, P.TasksOf;
  }

  /** The request does the same to the row of this model as to the row that the rotations
      start from. */
  lemma RequestsAgree(was: Instance, s: R.State, plan: Plan, requested: seq<string>)
    requires CanMove(was.plan, plan)
    requires s.domains == was.domains && s.current == was.current && s.pending == was.pending
    ensures var s' := RotationRuns.Request(s, MoveKind(was.plan, plan), requested);
            && s'.domains == DomainsAfter(was, plan, requested)
            && s'.pending == (if Reuses(was, plan, requested) then was.current else was.pending)
            && s' == s.(domains := s'.domains, pending := s'.pending)
  {
  }

  /** A row between operations. */
  predicate Settled(i: Instance) {
    !i.migrating && i.current.Some? && i.pending.None? && (i.distribution <==> OnDistribution(i.plan))
  }

  /** What the update of such a row leaves. */
  function Updated(was: Instance, plan: Plan, requested: seq<string>, next: nat): Instance {
    was.(plan := plan, domains := DomainsAfter(was, plan, requested), distribution := OnDistribution(plan),
         current := if Reuses(was, plan, requested) then was.current else Some(next))
  }

  /** An accepted request none of whose tasks fails: the instance has the plan it asked for,
      the domains that the request left, and a new certificate, unless the old one was to
      be used again; and it is ready for the next operation. */
  lemma UpdateGoesThrough(s: State, id: string, plan: Plan, requested: seq<string>, valid: bool, accepted: bool)
    requires |UpdateRequest(s, id, plan, requested, valid, accepted).operations| > |s.operations|
    requires Settled(s.instances[id])
    ensures var n := |s.operations|;
            var s1 := UpdateRequest(s, id, plan, requested, valid, accepted);
            var s' := After(s1, Successes(n, |s1.operations[n].todo|));
            && Ready(s', id) && Settled(s'.instances[id])
            && s'.instances == s.instances[id := Updated(s.instances[id], plan, requested, s.nextCertificate)]
  {
    hide Queue, P.TasksOf, After, Successes, UpdateRequest;
    UpdateQueues(s, id, plan, requested, valid, accepted);
    var n, was := |s.operations|, s.instances[id];
    var s1 := UpdateRequest(s, id, plan, requested, valid, accepted);
    RequestRow(s, id, plan, requested, valid, accepted);
    GoesThrough(s1, n, MoveKind(was.plan, plan));
    var s' := After(s1, Successes(n, |s1.operations[n].todo|));
    NoneIsActive(s, s', id, n);
  }

  lemma UpdateQueues(s: State, id: string, plan: Plan, requested: seq<string>, valid: bool, accepted: bool)
    requires |UpdateRequest(s, id, plan, requested, valid, accepted).operations| > |s.operations|
    requires !s.instances[id].migrating
    ensures CanMove(s.instances[id].plan, plan) && Ready(s, id)
    ensures UpdateRequest(s, id, plan, requested, valid, accepted).operations[|s.operations|]
         == New(id, Update, Queue(P.TasksOf(MoveKind(s.instances[id].plan, plan))))
  {
    hide Queue, P.TasksOf;
  }

  lemma NoneIsActive(s: State, s': State, id: string, n: nat)
    requires Ready(s, id) && n == |s.operations| && |s'.operations| == n + 1 && s'.operations[..n] == s.operations
    requires !Active(s'.operations[n]) && id in s'.instances && !s'.instances[id].deactivated
    ensures Ready(s', id)
  {
    forall k | 0 <= k < |s'.operations| && s'.operations[k].instance == id ensures !Active(s'.operations[k]) {
      if k < n { assert s'.operations[k] == s.operations[k]; }
    }
  }

  // ---- it all happens ----

  /** A move to a dedicated load balancer that asks for another domain. */
  lemma AMoveForgets() returns (before: seq<Event>, move: Event)
    ensures var s, s' := After(EMPTY, before), Next(After(EMPTY, before), move);
            && move.UpdateEvent? && move.requested == ["other.gov"]
            && |s'.operations| == |s.operations| + 1 && "id" in s'.instances
            && s'.instances["id"].plan == DedicatedAlb && s'.instances["id"].domains == ["example.gov"]
  {
    before := ProvisionGoesThrough("id", Alb, ["example.gov"]);
    hide After, Queue;
    move := UpdateEvent("id", DedicatedAlb, ["other.gov"], true, true);
  }

  /** A move between distributions whose parameters are refused. */
  lemma ARefusalChanges() returns (before: seq<Event>, move: Event)
    ensures var s, s' := After(EMPTY, before), Next(After(EMPTY, before), move);
            && s'.operations == s.operations && "id" in s.instances && "id" in s'.instances
            && s.instances["id"].plan == s'.instances["id"].plan == Cdn
            && s.instances["id"].domains == ["example.gov"] && s'.instances["id"].domains == ["other.gov"]
  {
    before := ProvisionGoesThrough("id", Cdn, ["example.gov"]);
    hide After, Queue;
    move := UpdateEvent("id", CdnWaf, ["other.gov"], true, false);
    assert "other.gov" in multiset(["other.gov"]) && "other.gov" !in multiset(["example.gov"]);
  }

  /** The same without new domains: the instance is left to use its certificate again. */
  lemma ARefusalLeavesTheCertificate() returns (before: seq<Event>, move: Event)
    ensures move.UpdateEvent? && move.requested == []
    ensures var s, s' := After(EMPTY, before), Next(After(EMPTY, before), move);
            && s'.operations == s.operations && "id" in s.instances && "id" in s'.instances
            && s.instances["id"].pending == None
            && s'.instances["id"].pending == s'.instances["id"].current == Some(0)
  {
    before := ProvisionGoesThrough("id", Cdn, ["example.gov"]);
    hide After, Queue;
    move := UpdateEvent("id", CdnWaf, [], true, false);
    RefusalLeavesTheCertificate(After(EMPTY, before), "id", [], true);
  }

  lemma MoveQueued(s: State, id: string)
    requires Ready(s, id) && s.instances[id].plan == DedicatedAlb && s.instances[id].domains == ["example.gov"]
    requires !s.instances[id].migrating
    ensures var s' := Next(s, UpdateEvent(id, CdnWaf, [], true, true));
            && s'.instances[id].migrating && |s'.operations| == |s.operations| + 1
            && Starts(s', |s.operations|) && s'.operations[|s.operations|].todo[0] == Step(Work, true, RETRIES)
            && s'.operations[|s.operations|].instance == id
            && s'.operations[..|s.operations|] == s.operations && s'.instances[id].domains == ["example.gov"]
            && !s'.instances[id].deactivated
  {
  }

  lemma NoneActiveAfter(s: State, id: string, n: nat, failed: Operation)
    requires |s.operations| == n + 1 && !Active(failed)
    requires forall k :: 0 <= k < n && s.operations[k].instance == id ==> !Active(s.operations[k])
    ensures !HasActive(s.(operations := s.operations[n := failed]), id)
  {
  }

  /** A move to a distribution whose first task fails for good leaves the instance
      migrating; when the next request has another domain, its operation is stuck. */
  lemma AFailedMoveCannotBeRepeated() returns (before: seq<Event>, n: nat)
    ensures var move := UpdateEvent("id", CdnWaf, [], true, true);
            var again := UpdateEvent("id", CdnWaf, ["other.gov"], true, true);
            var s := After(EMPTY, before + [move] + Failures(n, RETRIES + 1) + [again]);
            |s.operations| == n + 2 && s.operations[n].state.Failed? && Stuck(s.operations[n + 1]) && Blocks(s, n + 1)
  {
    hide After, Queue, P.TasksOf;
    before := ProvisionGoesThrough("id", DedicatedAlb, ["example.gov"]);
    var move := UpdateEvent("id", CdnWaf, [], true, true);
    var again := UpdateEvent("id", CdnWaf, ["other.gov"], true, true);
    var s0 := After(EMPTY, before);
    n := |s0.operations|;
    MoveQueued(s0, "id");
    var s1 := Next(s0, move);
    RetryBudget(s1, n, RETRIES + 1);
    var s2 := After(s1, Failures(n, RETRIES + 1));
    NoneActiveAfter(s1, "id", n, FailedTimes(s1.operations[n], RETRIES + 1));
    AfterOne(s0, move);
    AfterOne(s2, again);
    Concatenated(EMPTY, before, [move]);
    Concatenated(EMPTY, before + [move], Failures(n, RETRIES + 1));
    Concatenated(EMPTY, before + [move] + Failures(n, RETRIES + 1), [again]);
    assert "other.gov" in multiset(["other.gov"]) && "other.gov" !in multiset(["example.gov"]);
  }
}
