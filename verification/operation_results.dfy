/**
  Results about operations over all runs from an empty database.
 */
module OperationResults {
  import opened Operations
  import opened OperationSafety

  // ---- nothing comes back ----

  /** The operation is the same one, later: what was settled or canceled stays so. */
  predicate LaterOperation(a: Operation, b: Operation) {
    && b.instance == a.instance && b.action == a.action
    && (!a.state.InProgress? ==> b.state == a.state && b.canceled == a.canceled && b.todo == [])
    && (a.canceled ==> b.canceled && b.state == a.state)
  }

  ghost predicate Later(s: State, s': State) {
    && |s.operations| <= |s'.operations|
    && (forall i :: 0 <= i < |s.operations| ==> LaterOperation(s.operations[i], s'.operations[i]))
    && s.instances.Keys <= s'.instances.Keys
    && (forall id :: id in s.instances && s.instances[id].deactivated ==> s'.instances[id].deactivated)
  }

  lemma LaterSelf(s: State)
    requires Sound(s)
    ensures Later(s, s)
  {
    assert forall i :: 0 <= i < |s.operations| ==> SoundOperation(s.operations[i]);
  }

  lemma LaterThrough(a: State, b: State, c: State)
    requires Later(a, b) && Later(b, c)
    ensures Later(a, c)
  {
    forall i | 0 <= i < |a.operations| ensures LaterOperation(a.operations[i], c.operations[i]) {
      assert LaterOperation(a.operations[i], b.operations[i]) && LaterOperation(b.operations[i], c.operations[i]);
    }
  }

  /** A request adds an operation and touches no other. */
  lemma LaterByAdding(s: State, s': State, op: Operation)
    requires Sound(s) && s'.operations == s.operations + [op]
    requires s.instances.Keys <= s'.instances.Keys
    requires forall id :: id in s.instances && s.instances[id].deactivated ==> s'.instances[id].deactivated
    ensures Later(s, s')
  {
    LaterSelf(s);
  }

  lemma {:induction false} RenewalIsLater(s: State, expiring: seq<string>)
    requires Sound(s)
    ensures Later(s, RenewalScan(s, expiring))
    decreases |expiring|
  {
    LaterSelf(s);
    if expiring != [] {
      var s1 := RenewOne(s, expiring[0]);
      if s1 != s { LaterByAdding(s, s1, s1.operations[|s.operations|]); }
      RenewOneIsSound(s, expiring[0]);
      RenewalIsLater(s1, expiring[1..]);
      LaterThrough(s, s1, RenewalScan(s1, expiring[1..]));
    }
  }

  lemma {:induction false} StalledIsLater(s: State, stalled: seq<nat>)
    requires Sound(s)
    ensures Later(s, StalledScan(s, stalled))
    decreases |stalled|
  {
    LaterSelf(s);
    if stalled != [] && !Blocks(s, stalled[0]) {
      var s1 := Restart(s, stalled[0]);
      assert Later(s, s1);
      RestartIsSound(s, stalled[0]);
      hide Later, Restart;
      StalledIsLater(s1, stalled[1..]);
      LaterThrough(s, s1, StalledScan(s1, stalled[1..]));
    }
  }

  lemma PerformIsLater(s: State, i: nat)
    requires Sound(s) && Starts(s, i)
    ensures Later(s, Perform(s, i))
  {
    LaterSelf(s);
    assert SoundOperation(s.operations[i]);
    if s.operations[i].todo[0].duty.CancelOthers? {
      var op := s.operations[i];
      var mid := s.operations[i := op.(todo := op.todo[1..])];
      forall j | 0 <= j < |s.operations| ensures LaterOperation(s.operations[j], Perform(s, i).operations[j]) {
        assert Perform(s, i).operations[j] == CancelOne(mid[j], op.instance);
      }
    }
  }

  lemma AttemptIsLater(s: State, i: nat, outcome: Outcome)
    requires Sound(s)
    ensures Later(s, Attempt(s, i, outcome))
  {
    LaterSelf(s);
    if i < |s.operations| && s.operations[i].todo != [] {
      assert SoundOperation(s.operations[i]);
      if Starts(s, i) && outcome.Succeeds? { PerformIsLater(s, i); }
    }
  }

  lemma NextIsLater(s: State, e: Event)
    requires Sound(s)
    ensures Later(s, Next(s, e))
  {
    match e {
      case ProvisionEvent(id, plan, domains) =>
        LaterSelf(s);
        if id !in s.instances { LaterByAdding(s, Next(s, e), Next(s, e).operations[|s.operations|]); }
      case UpdateEvent(id, plan, requested, valid, accepted) =>
        LaterSelf(s);
        if Next(s, e).operations != s.operations {
          LaterByAdding(s, Next(s, e), Next(s, e).operations[|s.operations|]);
        }
      case DeprovisionEvent(id, plan) =>
        LaterSelf(s);
        if id in s.instances { LaterByAdding(s, Next(s, e), Next(s, e).operations[|s.operations|]); }
      case RenewalEvent(expiring) => RenewalIsLater(s, expiring);
      case StalledEvent(stalled) => StalledIsLater(s, stalled);
      case AttemptEvent(op, outcome) => AttemptIsLater(s, op, outcome);
    }
  }

  /** No step returns an operation to in-progress, clears a cancellation, revives a
      canceled operation or a deactivated instance. */
  lemma {:induction false} NothingComesBack(s: State, events: seq<Event>)
    requires Sound(s)
    ensures Later(s, After(s, events))
    decreases |events|
  {
    LaterSelf(s);
    hide Sound, Later, Next;
    if events != [] {
      NextIsLater(s, events[0]);
      NextIsSound(s, events[0]);
      NothingComesBack(Next(s, events[0]), events[1..]);
      LaterThrough(s, Next(s, events[0]), After(s, events));
    }
  }

  lemma Reachable(events: seq<Event>)
    ensures Sound(After(EMPTY, events))
  {
    AfterIsSound(EMPTY, events);
  }

  // ---- main results ----

  /** At most one operation other than a deprovision is active on an instance. */
  lemma AtMostOneActive(events: seq<Event>, i: nat, j: nat)
    requires var s := After(EMPTY, events);
             && i < |s.operations| && j < |s.operations| && s.operations[i].instance == s.operations[j].instance
             && Active(s.operations[i]) && !s.operations[i].action.Deprovision?
             && Active(s.operations[j]) && !s.operations[j].action.Deprovision?
    ensures i == j
  {
    Reachable(events);
    var s := After(EMPTY, events);
    assert Changes(s.operations[i]) && Changes(s.operations[j]);
  }

  /** While a deprovision is in progress on a quiet instance, the instance stays quiet. */
  lemma StaysQuiet(s: State, i: nat, e: Event)
    requires Sound(s) && i < |s.operations|
    requires s.operations[i].action.Deprovision? && s.operations[i].state.InProgress?
    requires QuietAt(s.operations, s.operations[i].instance)
    ensures QuietAt(Next(s, e).operations, s.operations[i].instance)
  {
    var id := s.operations[i].instance;
    assert SoundOperation(s.operations[i]);
    assert Active(s.operations[i]);
    assert HasActive(s, id);
    assert id in s.instances;
    match e {
      case RenewalEvent(expiring) => RenewalLeavesQuiet(s, expiring, i, id);
      case StalledEvent(stalled) => RestartsLeaveQuiet(s, stalled, id);
      case AttemptEvent(op, outcome) => AttemptLeavesQuiet(s, op, outcome, id);
      case _ =>
    }
  }

  lemma {:induction false} RenewalLeavesQuiet(s: State, expiring: seq<string>, i: nat, id: string)
    requires i < |s.operations| && s.operations[i].instance == id && Active(s.operations[i])
    requires QuietAt(s.operations, id)
    ensures QuietAt(RenewalScan(s, expiring).operations, id)
    decreases |expiring|
  {
    if expiring != [] {
      assert HasActive(s, id);
      var s1 := RenewOne(s, expiring[0]);
      assert s1.operations[i] == s.operations[i];
      assert QuietAt(s1.operations, id);
      RenewalLeavesQuiet(s1, expiring[1..], i, id);
    }
  }

  lemma {:induction false} RestartsLeaveQuiet(s: State, stalled: seq<nat>, id: string)
    requires QuietAt(s.operations, id)
    ensures QuietAt(StalledScan(s, stalled).operations, id)
    decreases |stalled|
  {
    if stalled != [] && !Blocks(s, stalled[0]) {
      var s1 := Restart(s, stalled[0]);
      forall k | 0 <= k < |s1.operations| && s1.operations[k].instance == id ensures !Changes(s1.operations[k]) {
        assert !Changes(s.operations[k]);
      }
      RestartsLeaveQuiet(s1, stalled[1..], id);
    }
  }

  lemma AttemptLeavesQuiet(s: State, op: nat, outcome: Outcome, id: string)
    requires QuietAt(s.operations, id)
    ensures QuietAt(Attempt(s, op, outcome).operations, id)
  {
    var s' := Attempt(s, op, outcome);
    forall k | 0 <= k < |s'.operations| && s'.operations[k].instance == id ensures !Changes(s'.operations[k]) {
      assert !Changes(s.operations[k]);
      if op < |s.operations| && Starts(s, op) && outcome.Succeeds? && s.operations[op].todo[0].duty.CancelOthers? {
        var o := s.operations[op];
        assert s'.operations[k] == CancelOne(s.operations[op := o.(todo := o.todo[1..])][k], o.instance);
      }
    }
  }

  lemma {:induction false} StaysQuietWhile(s: State, i: nat, events: seq<Event>)
    requires Sound(s) && i < |s.operations|
    requires s.operations[i].action.Deprovision? && s.operations[i].state.InProgress?
    requires QuietAt(s.operations, s.operations[i].instance)
    requires i < |After(s, events).operations| && After(s, events).operations[i].state.InProgress?
    ensures QuietAt(After(s, events).operations, s.operations[i].instance)
    decreases |events|
  {
    if events != [] {
      var s1 := Next(s, events[0]);
      NextIsSound(s, events[0]);
      NextIsLater(s, events[0]);
      NothingComesBack(s1, events[1..]);
      StaysQuiet(s, i, events[0]);
      assert LaterOperation(s.operations[i], s1.operations[i]);
      assert LaterOperation(s1.operations[i], After(s1, events[1..]).operations[i]);
      hide Sound, QuietAt, Later;
      StaysQuietWhile(s1, i, events[1..]);
    }
  }

  /** On a quiet instance only deprovisions start. */
  lemma OnlyDeprovisionsStart(s: State, j: nat)
    requires Sound(s) && Starts(s, j) && QuietAt(s.operations, s.operations[j].instance)
    ensures s.operations[j].action.Deprovision?
  {
    assert SoundOperation(s.operations[j]);
    assert !Changes(s.operations[j]);
  }

  /**
    Deprovisions run alone. Once a deprovision has canceled the pending operations
    of its instance, and while it is in progress, every task that starts on the
    instance belongs to a deprovision.
   */
  lemma AfterCancellation(before: seq<Event>, i: nat, between: seq<Event>, j: nat)
    requires var s := After(EMPTY, before);
             && Starts(s, i) && s.operations[i].todo[0].duty.CancelOthers?
             && var s' := After(Next(s, AttemptEvent(i, Succeeds)), between);
             && i < |s'.operations| && s'.operations[i].state.InProgress?
             && Starts(s', j) && s'.operations[j].instance == s.operations[i].instance
    ensures After(Next(After(EMPTY, before), AttemptEvent(i, Succeeds)), between).operations[j].action.Deprovision?
  {
    var s := After(EMPTY, before);
    Reachable(before);
    assert SoundOperation(s.operations[i]);
    var s1 := Next(s, AttemptEvent(i, Succeeds));
    NextIsSound(s, AttemptEvent(i, Succeeds));
    CancelStepIsSound(s, i);
    var op := s.operations[i];
    assert s1.operations[i] == CancelOne(op.(todo := op.todo[1..]), op.instance);
    StaysQuietWhile(s1, i, between);
    AfterIsSound(s1, between);
    OnlyDeprovisionsStart(After(s1, between), j);
  }

  lemma {:induction false} Concatenated(s: State, before: seq<Event>, more: seq<Event>)
    ensures After(s, before + more) == After(After(s, before), more)
    decreases |before|
  {
    if before == [] {
      assert [] + more == more;
    } else {
      assert (before + more)[1..] == before[1..] + more;
      Concatenated(Next(s, before[0]), before[1..], more);
    }
  }

  /** A deactivated instance never again has an active operation but a deprovision. */
  lemma DeactivatedForever(before: seq<Event>, more: seq<Event>, id: string)
    requires id in After(EMPTY, before).instances && After(EMPTY, before).instances[id].deactivated
    ensures var s := After(EMPTY, before + more);
            forall j :: 0 <= j < |s.operations| && s.operations[j].instance == id && Active(s.operations[j]) ==>
              s.operations[j].action.Deprovision?
  {
    var s := After(EMPTY, before);
    Reachable(before);
    Concatenated(EMPTY, before, more);
    NothingComesBack(s, more);
    Reachable(before + more);
    var s' := After(EMPTY, before + more);
    assert QuietAt(s'.operations, id);
    forall j | 0 <= j < |s'.operations| && s'.operations[j].instance == id && Active(s'.operations[j])
      ensures s'.operations[j].action.Deprovision?
    {
      assert !Changes(s'.operations[j]);
    }
  }

  /** Once canceled, no task of the operation starts and its state stays as it is. */
  lemma CanceledIsFrozen(before: seq<Event>, more: seq<Event>, i: nat)
    requires i < |After(EMPTY, before).operations| && After(EMPTY, before).operations[i].canceled
    ensures var s := After(EMPTY, before + more);
            i < |s.operations| && s.operations[i].canceled && s.operations[i].state.InProgress? && !Starts(s, i)
  {
    Reachable(before);
    Concatenated(EMPTY, before, more);
    var s := After(EMPTY, before);
    var s' := After(EMPTY, before + more);
    NothingComesBack(s, more);
    assert SoundOperation(s.operations[i]);
    assert LaterOperation(s.operations[i], s'.operations[i]);
    Reachable(before + more);
    assert SoundOperation(s'.operations[i]);
  }

  // ---- retries and failure ----

  function Failures(i: nat, n: nat): seq<Event> {
    seq(n, k => AttemptEvent(i, Raises))
  }

  /** The operation after n failures of the task at its head. */
  function FailedTimes(op: Operation, n: nat): Operation
    requires op.todo != []
  {
    var step := op.todo[0];
    if n <= step.retries then op.(todo := op.todo[0 := step.(retries := step.retries - n)])
    else op.(todo := [], state := if step.positional then Failed else op.state)
  }

  /**
    A task is tried once more than it has retries. After that the pipeline is gone,
    and the operation is marked failed exactly when the task was queued with the
    operation id as a positional argument.
   */
  lemma {:induction false} RetryBudget(s: State, i: nat, n: nat)
    requires Starts(s, i)
    ensures After(s, Failures(i, n)) == s.(operations := s.operations[i := FailedTimes(s.operations[i], n)])
    decreases n
  {
    var op := s.operations[i];
    if n == 0 {
      assert op.todo[0 := op.todo[0].(retries := op.todo[0].retries)] == op.todo;
      assert s.operations[i := op] == s.operations;
    } else {
      var s1 := Attempt(s, i, Raises);
      assert Failures(i, n)[0] == AttemptEvent(i, Raises);
      assert Failures(i, n)[1..] == Failures(i, n - 1);
      if op.todo[0].retries > 0 {
        RetryBudget(s1, i, n - 1);
        var step := op.todo[0];
        if n <= step.retries {
          assert op.todo[0 := step.(retries := step.retries - 1)][0 := step.(retries := step.retries - n)]
              == op.todo[0 := step.(retries := step.retries - n)];
        }
        assert s.operations[i := s1.operations[i]][i := FailedTimes(s1.operations[i], n - 1)]
            == s.operations[i := FailedTimes(s1.operations[i], n - 1)];
      } else {
        NothingLeft(s1, i, n - 1);
      }
    }
  }

  lemma {:induction false} NothingLeft(s: State, i: nat, n: nat)
    requires i < |s.operations| && s.operations[i].todo == []
    ensures After(s, Failures(i, n)) == s
    decreases n
  {
    if n > 0 {
      assert Failures(i, n)[0] == AttemptEvent(i, Raises);
      assert Failures(i, n)[1..] == Failures(i, n - 1);
      NothingLeft(s, i, n - 1);
    }
  }

  /** The queues that hold a task without a positional operation id: those that
      deprovision a distribution, and no other. */
  lemma KeywordQueues(plan: Plan, action: Action)
    ensures (exists k :: 0 <= k < |QueueFor(plan, action)| && !QueueFor(plan, action)[k].positional)
       <==> action.Deprovision? && (plan.Cdn? || plan.CdnWaf?)
  {
    QueueForIsShaped(plan, action);
    if action.Deprovision? {
      if plan.Cdn? {
        assert !DeprovisionQueue(plan)[5].positional;
      } else if plan.CdnWaf? {
        assert !DeprovisionQueue(plan)[11].positional;
      }
    }
  }
}
