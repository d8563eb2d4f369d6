/**
  When an operation is stuck: active, with nothing queued. Its pipeline was lost, by a
  retrieval that canceled itself or by a task without a positional operation id that ran
  out of retries, or there never was one, as the request was for a migrating instance.
  Only the scan for stalled operations starts it again, if it gets that far.
 */
module OperationStalls {
  import opened Wrappers
  import opened Operations
  import opened OperationSafety
  import opened OperationResults
  import P = Pipelines
  import R = Records

  predicate Stuck(op: Operation) {
    Active(op) && op.todo == []
  }

  // ---- how a pipeline is lost, and started again ----

  /** A retrieval whose order was rejected is tried again and cancels itself, or a task
      queued without a positional operation id fails for the last time. */
  predicate Loses(s: State, i: nat, e: Event) {
    && e.AttemptEvent? && e.op == i && Starts(s, i)
    && var step := s.operations[i].todo[0];
       if e.outcome.Succeeds? then Abandons(s, s.operations[i].instance, step.duty)
       else step.retries == 0 && !step.positional
  }

  /** The operations that the scan comes to before it raises. */
  function Scanned(s: State, stalled: seq<nat>): seq<nat> {
    if stalled == [] || Blocks(s, stalled[0]) then [] else [stalled[0]] + Scanned(s, stalled[1..])
  }

  predicate Restarts(s: State, i: nat, e: Event) {
    e.StalledEvent? && i in Scanned(s, e.stalled)
  }

  /** An update of a migrating instance, with new domains: its operation is the next. */
  predicate Strands(s: State, i: nat, e: Event) {
    && e.UpdateEvent? && i == |s.operations| && |Next(s, e).operations| == i + 1
    && s.instances[e.id].migrating
  }

  /** The k-th event left operation i without a pipeline, and no scan has started it since. */
  ghost predicate LostAt(events: seq<Event>, i: nat, k: nat) {
    && k < |events|
    && (Loses(After(EMPTY, events[..k]), i, events[k]) || Strands(After(EMPTY, events[..k]), i, events[k]))
    && forall j :: k < j < |events| ==> !Restarts(After(EMPTY, events[..j]), i, events[j])
  }

  // ---- one event ----

  lemma AttemptStalls(s: State, op: nat, outcome: Outcome, i: nat)
    requires Sound(s) && i < |s.operations| && Active(Attempt(s, op, outcome).operations[i])
    ensures Active(s.operations[i])
    ensures (Stuck(Attempt(s, op, outcome).operations[i])
             <==> (Stuck(s.operations[i]) || Loses(s, i, AttemptEvent(op, outcome))))
  {
    var s' := Attempt(s, op, outcome);
    if op < |s.operations| && s.operations[op].todo != [] {
      assert SoundOperation(s.operations[op]);
      if Starts(s, op) && outcome.Succeeds? && s.operations[op].todo[0].duty.CancelOthers? {
        var o := s.operations[op];
        assert Shaped(o.todo, o.action);
        assert s'.operations[i] == CancelOne(s.operations[op := o.(todo := o.todo[1..])][i], o.instance);
      }
    }
  }

  lemma {:induction false} StalledScanStarts(s: State, stalled: seq<nat>, i: nat)
    requires i < |s.operations| && s.operations[i].instance in s.instances
    ensures var s' := StalledScan(s, stalled);
            && i < |s'.operations| && Active(s'.operations[i]) == Active(s.operations[i])
            && (Stuck(s'.operations[i]) <==> (Stuck(s.operations[i]) && i !in Scanned(s, stalled)))
    decreases |stalled|
  {
    if stalled != [] && !Blocks(s, stalled[0]) {
      var s1 := Restart(s, stalled[0]);
      QueueForIsShaped(s.instances[s.operations[i].instance].plan, s.operations[i].action);
      hide QueueFor;
      assert s1.operations[i].instance == s.operations[i].instance;
      StalledScanStarts(s1, stalled[1..], i);
      ScannedAlike(s, s1, stalled[1..]);
    }
  }

  /** Where a scan stops does not depend on what is queued. */
  lemma {:induction false} ScannedAlike(s: State, s1: State, stalled: seq<nat>)
    requires s1.instances == s.instances && |s1.operations| == |s.operations|
    requires forall i :: 0 <= i < |s.operations| ==> s1.operations[i] == s.operations[i].(todo := s1.operations[i].todo)
    ensures Scanned(s1, stalled) == Scanned(s, stalled)
    decreases |stalled|
  {
    if stalled != [] { ScannedAlike(s, s1, stalled[1..]); }
  }

  lemma {:induction false} RenewalScanAdds(s: State, expiring: seq<string>, i: nat)
    ensures var s' := RenewalScan(s, expiring);
            && |s.operations| <= |s'.operations|
            && (i < |s.operations| ==> s'.operations[i] == s.operations[i])
            && (|s.operations| <= i < |s'.operations| ==> s'.operations[i].todo != [])
    decreases |expiring|
  {
    if expiring != [] {
      var s1 := RenewOne(s, expiring[0]);
      if s1 != s { KindIsShaped(RenewKind(s.instances[expiring[0]].plan), Renew); }
      hide Queue;
      RenewalScanAdds(s1, expiring[1..], i);
    }
  }

  /** The other requests add an operation with tasks, one without, or none. */
  lemma RequestAdds(s: State, e: Event, i: nat)
    requires e.ProvisionEvent? || e.UpdateEvent? || e.DeprovisionEvent?
    ensures var s' := Next(s, e);
            && |s.operations| <= |s'.operations|
            && (i < |s.operations| ==> s'.operations[i] == s.operations[i])
            && (|s.operations| <= i < |s'.operations| ==> (s'.operations[i].todo == [] <==> Strands(s, i, e)))
  {
    match e {
      case ProvisionEvent(_, plan, _) => KindIsShaped(ProvisionKind(plan), Provision);
      case UpdateEvent(id, plan, _, _, _) =>
        if id in s.instances && CanMove(s.instances[id].plan, plan) {
          KindIsShaped(MoveKind(s.instances[id].plan, plan), Update);
        }
      case DeprovisionEvent(_, plan) => QueueForIsShaped(plan, Deprovision);
    }
  }

  /** Of an operation that is active after an event: it is stuck exactly if the event
      lost its pipeline, or it was stuck before and the event did not start it again. */
  lemma NextStalls(s: State, e: Event, i: nat)
    requires Sound(s) && i < |Next(s, e).operations| && Active(Next(s, e).operations[i])
    ensures (Stuck(Next(s, e).operations[i])
             <==> (Loses(s, i, e) || Strands(s, i, e)
                   || (i < |s.operations| && Stuck(s.operations[i]) && !Restarts(s, i, e))))
  {
    hide Sound, Queue;
    match e {
      case RenewalEvent(expiring) => RenewalScanAdds(s, expiring, i);
      case StalledEvent(stalled) =>
        StalledKeepsCount(s, stalled);
        InstancesKnown(s, i);
        StalledScanStarts(s, stalled, i);
      case AttemptEvent(op, outcome) => AttemptStalls(s, op, outcome, i);
      case _ => RequestAdds(s, e, i);
    }
  }

  lemma InstancesKnown(s: State, i: nat)
    requires Sound(s) && i < |s.operations|
    ensures s.operations[i].instance in s.instances
  {
  }

  lemma {:induction false} StalledKeepsCount(s: State, stalled: seq<nat>)
    ensures |StalledScan(s, stalled).operations| == |s.operations|
    decreases |stalled|
  {
    if stalled != [] && !Blocks(s, stalled[0]) { StalledKeepsCount(Restart(s, stalled[0]), stalled[1..]); }
  }

  // ---- main result ----

  lemma AfterOneMore(events: seq<Event>)
    requires events != []
    ensures var k := |events| - 1;
            After(EMPTY, events) == Next(After(EMPTY, events[..k]), events[k])
  {
    var k := |events| - 1;
    assert events[..k] + [events[k]] == events;
    Concatenated(EMPTY, events[..k], [events[k]]);
    var s := After(EMPTY, events[..k]);
    assert After(s, [events[k]]) == After(Next(s, events[k]), [][..]);
  }

  /** To have been lost is to be lost by the last event, or before it and not started. */
  lemma LostEarlier(events: seq<Event>, i: nat)
    requires events != []
    ensures var k := |events| - 1;
            var s := After(EMPTY, events[..k]);
            ((exists j: nat :: LostAt(events, i, j))
             <==> (Loses(s, i, events[k]) || Strands(s, i, events[k])
                   || ((exists j: nat :: LostAt(events[..k], i, j)) && !Restarts(s, i, events[k]))))
  {
    var k := |events| - 1;
    var before := events[..k];
    var s := After(EMPTY, before);
    assert forall j :: 0 <= j <= k ==> before[..j] == events[..j];
    hide Loses, Strands, Restarts, After;
    if j: nat :| LostAt(events, i, j) {
      if j < k { assert LostAt(before, i, j); }
    }
    if Loses(s, i, events[k]) || Strands(s, i, events[k]) { assert LostAt(events, i, k); }
    if !Restarts(s, i, events[k]) {
      if j: nat :| LostAt(before, i, j) {
        forall n | j < n < |events| ensures !Restarts(After(EMPTY, events[..n]), i, events[n]) {
          if n < k { assert before[n] == events[n]; }
        }
        assert LostAt(events, i, j);
      }
    }
  }

  /**
    Stuck exactly when lost. After any events, an operation in progress and not
    canceled has nothing queued if and only if some event lost its pipeline, or created it
    without one, and no scan has started it since.
   */
  lemma {:induction false} StuckExactlyWhenLost(events: seq<Event>, i: nat)
    requires i < |After(EMPTY, events).operations| && Active(After(EMPTY, events).operations[i])
    ensures After(EMPTY, events).operations[i].todo == [] <==> exists k: nat :: LostAt(events, i, k)
    decreases |events|
  {
    if events != [] {
      var k := |events| - 1;
      var before, e := events[..k], events[|events| - 1];
      var s := After(EMPTY, before);
      Reachable(before);
      AfterOneMore(events);
      NextStalls(s, e, i);
      LostEarlier(events, i);
      if i < |s.operations| {
        NextIsLater(s, e);
        assert LaterOperation(s.operations[i], Next(s, e).operations[i]);
        hide Sound, Next, After, LostAt, Loses, Strands;
        StuckExactlyWhenLost(before, i);
      } else {
        NotYetLost(before, i);
      }
    }
  }

  /** An operation that is not there yet was not lost. */
  lemma NotYetLost(events: seq<Event>, i: nat)
    requires |After(EMPTY, events).operations| <= i
    ensures forall k: nat :: !LostAt(events, i, k)
  {
    forall k: nat ensures !LostAt(events, i, k) {
      if k < |events| {
        var first, rest := events[..k + 1], events[k + 1..];
        assert first + rest == events && first[..k] == events[..k];
        hide Sound, Next, After;
        Reachable(events[..k]);
        Reachable(first);
        AfterOneMore(first);
        NextIsLater(After(EMPTY, events[..k]), events[k]);
        Concatenated(EMPTY, first, rest);
        NothingComesBack(After(EMPTY, first), rest);
      }
    }
  }

  // ---- a rejected order ----

  /**
    A rejected order loses the pipeline, however many retries are left: the pending
    certificate is deleted, and the next attempt finds none, cancels itself and leaves
    the operation in progress. Only a rejection on the last attempt marks it failed.
   */
  lemma RejectionLosesThePipeline(s: State, i: nat)
    requires Starts(s, i) && s.operations[i].todo[0].duty.Retrieve? && s.operations[i].todo[0].positional
    requires s.operations[i].instance in s.instances
    requires var pending := s.instances[s.operations[i].instance].pending;
             pending.Some? && pending.value !in s.retrieved
    ensures var op := s.operations[i];
            After(s, [AttemptEvent(i, Rejects), AttemptEvent(i, Succeeds)])
            == s.(instances := s.instances[op.instance := s.instances[op.instance].(pending := None)],
                  operations := s.operations[i := op.(todo := [],
                                                      state := if op.todo[0].retries > 0 then op.state else Failed)])
  {
    var e, f := AttemptEvent(i, Rejects), AttemptEvent(i, Succeeds);
    var s1 := Next(s, e);
    assert [e, f][1..] == [f] && [f][1..] == [];
    assert After(s, [e, f]) == After(Next(s1, f), []);
    assert s1.operations[i := Next(s1, f).operations[i]] == s.operations[i := Next(s1, f).operations[i]];
  }

  // ---- pipelines that go through ----

  function Successes(i: nat, n: nat): seq<Event> {
    seq(n, k => AttemptEvent(i, Succeeds))
  }

  /** None of the steps settles an operation, or cancels one. */
  predicate Smooth(s: State, id: string, steps: seq<Step>)
    decreases |steps|
  {
    steps == [] ||
    (&& Ordinary(steps[0].duty) && !Abandons(s, id, steps[0].duty)
     && Smooth(Effect(s, id, steps[0].duty), id, steps[1..]))
  }

  function EffectAll(s: State, id: string, steps: seq<Step>): State
    decreases |steps|
  {
    if steps == [] then s else EffectAll(Effect(s, id, steps[0].duty), id, steps[1..])
  }

  /** What the tasks leave of the rows does not depend on what is queued. */
  lemma {:induction false} EffectAside(s: State, operations: seq<Operation>, id: string, steps: seq<Step>)
    ensures EffectAll(s.(operations := operations), id, steps) == EffectAll(s, id, steps).(operations := operations)
    ensures Smooth(s.(operations := operations), id, steps) <==> Smooth(s, id, steps)
    ensures EffectAll(s, id, steps).operations == s.operations
    decreases |steps|
  {
    if steps != [] {
      var s1 := Effect(s, id, steps[0].duty);
      assert Effect(s.(operations := operations), id, steps[0].duty) == s1.(operations := operations);
      hide Effect, Abandons;
      EffectAside(s1, operations, id, steps[1..]);
    }
  }

  lemma OneSucceeds(s: State, i: nat)
    requires i < |s.operations| && !s.operations[i].canceled && s.operations[i].todo != []
    requires Smooth(s, s.operations[i].instance, s.operations[i].todo[..1])
    ensures var op := s.operations[i];
            Next(s, AttemptEvent(i, Succeeds))
            == Effect(s, op.instance, op.todo[0].duty).(operations := s.operations[i := op.(todo := op.todo[1..])])
  {
  }

  /** Tasks that succeed leave the rest of the queue. */
  lemma {:induction false} Worked(s: State, i: nat, n: nat)
    requires i < |s.operations| && !s.operations[i].canceled && n <= |s.operations[i].todo|
    requires Smooth(s, s.operations[i].instance, s.operations[i].todo[..n])
    ensures var op := s.operations[i];
            After(s, Successes(i, n))
            == EffectAll(s, op.instance, op.todo[..n]).(operations := s.operations[i := op.(todo := op.todo[n..])])
    decreases n
  {
    var op := s.operations[i];
    if n == 0 {
      assert op.todo[0..] == op.todo;
      assert s.operations[i := op] == s.operations;
    } else {
      var steps := op.todo[..n];
      assert steps[..1] == op.todo[..1] && steps[1..] == op.todo[1..][..n - 1] && steps[0] == op.todo[0];
      assert Smooth(s, op.instance, op.todo[..1]);
      OneSucceeds(s, i);
      var s1 := Next(s, AttemptEvent(i, Succeeds));
      var e1 := Effect(s, op.instance, op.todo[0].duty);
      assert Successes(i, n)[0] == AttemptEvent(i, Succeeds) && Successes(i, n)[1..] == Successes(i, n - 1);
      hide Effect, Next;
      EffectAside(e1, s1.operations, op.instance, steps[1..]);
      Worked(s1, i, n - 1);
      assert op.todo[1..][n - 1..] == op.todo[n..];
      assert s.operations[i := s1.operations[i]][i := op.(todo := op.todo[n..])]
          == s.operations[i := op.(todo := op.todo[n..])];
    }
  }

  // ---- both ways happen ----

  /** What comes before the retrieval: a key is made, and nothing else. */
  predicate BeforeRetrieval(steps: seq<Step>) {
    && |steps| == 6
    && forall k :: 0 <= k < 6 ==> steps[k].duty == if k == 1 then MakeKey else Work
  }

  lemma {:induction false} WorkChangesNothing(s: State, id: string, steps: seq<Step>)
    requires forall k :: 0 <= k < |steps| ==> steps[k].duty.Work?
    ensures Smooth(s, id, steps) && EffectAll(s, id, steps) == s
    decreases |steps|
  {
    if steps != [] {
      assert Effect(s, id, steps[0].duty) == s;
      WorkChangesNothing(s, id, steps[1..]);
    }
  }

  lemma KeyIsMade(s: State, id: string, steps: seq<Step>)
    requires BeforeRetrieval(steps) && id in s.instances && s.instances[id].pending.None?
    ensures Smooth(s, id, steps) && EffectAll(s, id, steps) == Effect(s, id, MakeKey)
  {
    var s1 := Effect(s, id, MakeKey);
    assert Effect(s, id, Work) == s;
    WorkChangesNothing(s1, id, steps[2..]);
    assert steps[1..][1..] == steps[2..];
    assert Smooth(s, id, steps[1..]) && EffectAll(s, id, steps[1..]) == s1;
  }

  lemma AlbProvisionStarts(domains: seq<string>) returns (todo: seq<Step>)
    ensures var s := After(EMPTY, [ProvisionEvent("id", Alb, domains)]);
            && s.operations == [New("id", Provision, todo)] && s.retrieved == {}
            && "id" in s.instances && s.instances["id"].pending.None?
    ensures |todo| > 6 && todo[6] == Step(Retrieve, true, RETRIES) && BeforeRetrieval(todo[..6])
  {
    var rest := P.ToAlb(P.PointDns(P.Then(P.ProvisionTask, P.Finished)));
    assert P.TasksOf(P.AlbProvision) == P.Then(P.CreateUserTask, P.Issue(R.GovCloud, rest));
    hide Queue, P.TasksOf, P.Issue, BeforeRetrieval;
    todo := Queue(P.TasksOf(P.AlbProvision));
    FirstTasks(R.GovCloud, rest);
    var e := ProvisionEvent("id", Alb, domains);
    assert After(EMPTY, [e]) == Next(EMPTY, e) by { assert After(Next(EMPTY, e), [e][1..]) == Next(EMPTY, e); }
  }

  /** A provisioning whose order the authority finds invalid. */
  lemma ARejectedOrderStalls(domains: seq<string>) returns (events: seq<Event>)
    ensures var s := After(EMPTY, events);
            |s.operations| == 1 && Stuck(s.operations[0]) && s.operations[0].action.Provision?
  {
    hide Queue, P.TasksOf, Next, After, BeforeRetrieval, Smooth, EffectAll;
    var request := [ProvisionEvent("id", Alb, domains)];
    var s0 := After(EMPTY, request);
    var todo := AlbProvisionStarts(domains);
    KeyIsMade(s0, "id", todo[..6]);
    Worked(s0, 0, 6);
    var s1 := After(s0, Successes(0, 6));
    assert s1.operations[0].todo[0] == todo[6] && s1.instances["id"].pending.Some? && s1.retrieved == {};
    RejectionLosesThePipeline(s1, 0);
    var last := [AttemptEvent(0, Rejects), AttemptEvent(0, Succeeds)];
    events := request + Successes(0, 6) + last;
    Concatenated(EMPTY, request + Successes(0, 6), last);
    Concatenated(EMPTY, request, Successes(0, 6));
  }

  lemma QueueOf(t: P.Task, rest: P.Pipeline)
    ensures Queue(P.Then(t, rest)) == [StepOf(t)] + Queue(rest)
  {
  }

  /** What comes before the retrieval when a certificate is issued for a new instance. */
  lemma FirstTasks(partition: R.Partition, rest: P.Pipeline)
    ensures var todo := Queue(P.Then(P.CreateUserTask, P.Issue(partition, rest)));
            && |todo| >= 8 && todo[6] == Step(Retrieve, true, RETRIES) && todo[7].duty.Work?
            && BeforeRetrieval(todo[..6]) && todo[8..] == Queue(rest)
  {
    hide Queue;
    var p6 := P.Then(P.RetrieveCertificateTask, P.Then(P.UploadTask(partition), rest));
    QueueOf(P.UploadTask(partition), rest);
    QueueOf(P.RetrieveCertificateTask, p6.rest);
    QueueOf(P.AnswerChallengesTask, p6);
    var p4 := P.Then(P.WaitForChangesTask, P.Then(P.AnswerChallengesTask, p6));
    QueueOf(P.WaitForChangesTask, p4.rest);
    QueueOf(P.CreateTxtTask, p4);
    QueueOf(P.InitiateChallengesTask, P.Then(P.CreateTxtTask, p4));
    var p1 := P.Then(P.InitiateChallengesTask, P.Then(P.CreateTxtTask, p4));
    QueueOf(P.GenerateKeyTask, p1);
    QueueOf(P.CreateUserTask, P.Issue(partition, rest));
  }

  /** What is left of the deprovision of a distribution once it has canceled the others. */
  lemma DeprovisionGetsStuck(s: State, i: nat) returns (events: seq<Event>)
    requires i < |s.operations| && Active(s.operations[i])
    requires s.operations[i].todo == DeprovisionQueue(Cdn)[1..]
    ensures var s' := After(s, events);
            |s'.operations| == |s.operations| && s'.operations[i] == s.operations[i].(todo := [])
  {
    hide After;
    WorkChangesNothing(s, s.operations[i].instance, s.operations[i].todo[..4]);
    Worked(s, i, 4);
    var s1 := After(s, Successes(i, 4));
    assert s1.operations[i].todo[0] == Worker(false);
    RetryBudget(s1, i, RETRIES + 1);
    events := Successes(i, 4) + Failures(i, RETRIES + 1);
    Concatenated(s, Successes(i, 4), Failures(i, RETRIES + 1));
  }

  /** A CDN deprovision whose distribution cannot be deleted. */
  lemma ACdnDeprovisionStalls(domains: seq<string>) returns (events: seq<Event>)
    ensures var s := After(EMPTY, events);
            |s.operations| == 2 && Stuck(s.operations[1]) && s.operations[1].action.Deprovision?
  {
    hide After, DeprovisionQueue;
    var start := [ProvisionEvent("id", Cdn, domains), DeprovisionEvent("id", Cdn), AttemptEvent(1, Succeeds)];
    CancelStarted(domains);
    var more := DeprovisionGetsStuck(After(EMPTY, start), 1);
    events := start + more;
    Concatenated(EMPTY, start, more);
  }

  lemma CancelStarted(domains: seq<string>)
    ensures var start := [ProvisionEvent("id", Cdn, domains), DeprovisionEvent("id", Cdn), AttemptEvent(1, Succeeds)];
            var s := After(EMPTY, start);
            |s.operations| == 2 && s.operations[1] == New("id", Deprovision, DeprovisionQueue(Cdn)[1..])
  {
    hide P.TasksOf;
    var a, b, c := ProvisionEvent("id", Cdn, domains), DeprovisionEvent("id", Cdn), AttemptEvent(1, Succeeds);
    assert [a, b, c][1..] == [b, c] && [b, c][1..] == [c] && [c][1..] == [];
    var s1 := Next(EMPTY, a);
    var s2 := Next(s1, b);
    assert After(EMPTY, [a, b, c]) == After(s1, [b, c]) == After(s2, [c]) == Next(s2, c);
    assert s2.operations[1] == New("id", Deprovision, DeprovisionQueue(Cdn));
    assert Starts(s2, 1);
  }
}
