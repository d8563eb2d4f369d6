/**
  Monitoring as the pipelines run it: the tasks of each chain, in its order, do what
  reconciling or provisioning says, and to start a chain again changes nothing about where
  it ends.
 */
module MonitoringRuns {
  import opened Wrappers
  import opened HealthChecks
  import opened PlanQueues
  import P = Pipelines
  import O = Operations
  import D = Deprovisioning

  /** What a task does to the health checks, alarms and association; None when it raises.
      A topic is only created when there is none. The tasks for subscriptions and for the
      attack alarm touch nothing else that is modelled here. */
  function Effect(t: P.Task, s: State): Option<State> {
    match t
    case CreateTopicTask => Some(s.(topic := true))
    case CreateNewHealthChecksTask => CreateNew(s)
    case AssociateHealthCheckTask => Associate(s)
    case UpdateAssociatedHealthCheckTask => UpdateAssociated(s)
    case DeleteUnusedHealthChecksTask => Some(DeleteUnused(s))
    case DeleteHealthCheckAlarmsTask => Some(DeleteAlarms(s))
    case CreateHealthCheckAlarmsTask => CreateAlarms(s)
    case CreateDdosAlarmTask => if s.topic then Some(s) else None
    case _ => Some(s)
  }

  // ---- a chain that is never interrupted ----

  function Through(p: P.Pipeline, s: State): Option<State>
    decreases p
  {
    if p.Finished? then Some(s)
    else
      var s' := Effect(p.task, s);
      if s'.None? then None else Through(p.rest, s'.value)
  }

  function All(tasks: seq<P.Task>, s: State): Option<State>
    decreases |tasks|
  {
    if tasks == [] then Some(s)
    else
      var s' := Effect(tasks[0], s);
      if s'.None? then None else All(tasks[1..], s'.value)
  }

  lemma {:induction false} OthersAreAside(p: P.Pipeline, s: State)
    ensures Through(p, s) == All(Only(p, Monitoring), s)
    decreases p
  {
    hide CreateNew, Associate, UpdateAssociated, DeleteUnused, DeleteAlarms, CreateAlarms;
    if p.Then? {
      var s' := Effect(p.task, s);
      if Is(p.task, Monitoring) {
        assert Only(p, Monitoring)[1..] == Only(p.rest, Monitoring);
      } else {
        assert s' == Some(s);
      }
      if s'.Some? { OthersAreAside(p.rest, s'.value); }
    }
  }

  lemma From(tasks: seq<P.Task>, k: nat, s: State)
    requires k < |tasks|
    ensures All(tasks[k..], s)
         == (var s' := Effect(tasks[k], s); if s'.None? then None else All(tasks[k + 1..], s'.value))
  {
    assert tasks[k..][1..] == tasks[k + 1..];
  }

  lemma {:induction false} CreatingFrame(s: State, domains: seq<string>, index: nat)
    ensures CreateAll(s, domains, index).Some? ==>
              var s' := CreateAll(s, domains, index).value;
              s' == s.(checks := s'.checks, health := s'.health, references := s'.references, nextId := s'.nextId)
    decreases |domains|
  {
    if domains != [] && Create(s, index, domains[0]).Some? {
      CreatingFrame(Create(s, index, domains[0]).value, domains[1..], index + 1);
    }
  }

  /** No step but the first changes whether there is a topic. */
  lemma TopicStays(s: State, t: P.Task)
    requires !t.CreateTopicTask? && Effect(t, s).Some?
    ensures Effect(t, s).value.topic == s.topic && Effect(t, s).value.domains == s.domains
  {
    hide CreateAll, DeleteAll;
    CreatingFrame(s, Unchecked(s.domains, Recorded(s)), 0);
    DeleteAllIs(s, Unwanted(Recorded(s), s.domains));
  }

  lemma Nothing(s: State)
    ensures All([], s) == Some(s)
  {
  }

  /** The last two steps, when there is a topic. */
  lemma AlarmsLast(tasks: seq<P.Task>, k: nat, s: State)
    requires k + 2 == |tasks| && tasks[k].CreateHealthCheckAlarmsTask? && tasks[k + 1].CreateDdosAlarmTask? && s.topic
    ensures All(tasks[k..], s) == CreateAlarms(s)
  {
    From(tasks, k, s);
    TopicStays(s, tasks[k]);
    if CreateAlarms(s).Some? {
      From(tasks, k + 1, CreateAlarms(s).value);
      assert tasks[k + 2..] == [];
    }
  }

  lemma SetupIs(s: State)
    ensures All(SETUP, s) == Provision(s.(topic := true))
  {
    hide CreateNew, Associate, CreateAlarms, All;
    var s1 := s.(topic := true);
    assert SETUP[0..] == SETUP;
    From(SETUP, 0, s);
    From(SETUP, 1, s1);
    From(SETUP, 2, s1);
    if CreateNew(s1).Some? {
      var s2 := CreateNew(s1).value;
      TopicStays(s1, SETUP[2]);
      From(SETUP, 3, s2);
      if Associate(s2).Some? {
        TopicStays(s2, SETUP[3]);
        AlarmsLast(SETUP, 4, Associate(s2).value);
      }
    }
  }

  lemma RenewedStart(s: State)
    ensures All(RENEWED, s) == All(RENEWED[3..], s.(topic := true))
  {
    hide CreateNew, UpdateAssociated, DeleteUnused, DeleteAlarms, CreateAlarms, All;
    assert RENEWED[0..] == RENEWED;
    From(RENEWED, 0, s);
    From(RENEWED, 1, s.(topic := true));
    From(RENEWED, 2, s.(topic := true));
  }

  lemma RenewedEnd(s: State)
    requires s.topic
    ensures All(RENEWED[5..], s) == CreateAlarms(DeleteAlarms(DeleteUnused(s)))
  {
    hide CreateNew, UpdateAssociated, DeleteUnused, DeleteAlarms, CreateAlarms, All;
    From(RENEWED, 5, s);
    TopicStays(s, RENEWED[5]);
    From(RENEWED, 6, DeleteUnused(s));
    TopicStays(DeleteUnused(s), RENEWED[6]);
    AlarmsLast(RENEWED, 7, DeleteAlarms(DeleteUnused(s)));
  }

  lemma RenewedIs(s: State)
    ensures All(RENEWED, s) == Reconcile(s.(topic := true))
  {
    hide CreateNew, UpdateAssociated, DeleteUnused, DeleteAlarms, CreateAlarms, All;
    var s1 := s.(topic := true);
    RenewedStart(s);
    From(RENEWED, 3, s1);
    if CreateNew(s1).Some? {
      var s2 := CreateNew(s1).value;
      TopicStays(s1, RENEWED[3]);
      From(RENEWED, 4, s2);
      if UpdateAssociated(s2).Some? {
        TopicStays(s2, RENEWED[4]);
        RenewedEnd(UpdateAssociated(s2).value);
      }
    }
  }

  /** The whole provisioning, move and update pipelines of each plan: the plan with
      monitoring sets it up, or reconciles it, and no other pipeline touches it. */
  lemma PipelinesMonitor(from: O.Plan, plan: O.Plan, s: State)
    requires O.CanMove(from, plan)
    ensures Through(P.TasksOf(O.ProvisionKind(plan)), s)
         == if plan.CdnWaf? then Provision(s.(topic := true)) else Some(s)
    ensures Through(P.TasksOf(O.RenewKind(plan)), s) == Some(s)
    ensures Through(P.TasksOf(O.MoveKind(from, plan)), s)
         == if !plan.CdnWaf? then Some(s)
            else if from == plan then Reconcile(s.(topic := true)) else Provision(s.(topic := true))
  {
    hide Through, All, P.TasksOf, Only, Provision, Reconcile;
    OthersAreAside(P.TasksOf(O.ProvisionKind(plan)), s);
    OthersAreAside(P.TasksOf(O.RenewKind(plan)), s);
    OthersAreAside(P.TasksOf(O.MoveKind(from, plan)), s);
    ProvisionTasks(plan, Monitoring);
    RenewalTasks(plan, Monitoring);
    if from == plan { UpdateTasks(plan, Monitoring); } else { MoveTasks(from, plan, Monitoring); }
    Nothing(s);
    SetupIs(s);
    RenewedIs(s);
  }

  // ---- steps that were taken change nothing when they are taken again ----

  predicate Wanted(s: State) {
    forall c :: c in Recorded(s) ==> c.domain in s.domains
  }

  /** The association is with a check for a domain, if there is one. */
  predicate AssociatedRight(s: State) {
    if s.associated.Some? then s.associated.value.domain in s.domains
    else forall c :: c in Recorded(s) ==> c.domain !in s.domains
  }

  lemma {:induction false} AllHaveChecks(domains: seq<string>, checks: seq<Check>)
    requires forall d :: d in domains ==> Has(checks, d)
    ensures Unchecked(domains, checks) == []
    decreases |domains|
  {
    if domains != [] {
      assert domains[0] in domains;
      AllHaveChecks(domains[1..], checks);
    }
  }

  lemma CreatedOnce(s: State)
    requires Consistent(s) && CreateNew(s).Some?
    ensures var s' := CreateNew(s).value;
            Consistent(s') && NoneToCreate(s') && CreateNew(s') == Some(s') && Reconcile(s') == Reconcile(s)
  {
    hide Consistent, Has;
    var s' := CreateNew(s).value;
    CreateNewKeeps(s, "");
    forall d | d in s'.domains ensures Has(Recorded(s'), d) { AllChecked(s, d); }
    AllHaveChecks(s'.domains, Recorded(s'));
    NothingCreated(s');
  }

  lemma RightStays(s: State)
    requires AssociatedRight(s)
    ensures UpdateAssociated(s) == Some(s)
  {
    FirstWantedIs(Recorded(s), s.domains);
  }

  lemma AssociatedOnce(s: State)
    requires Consistent(s) && NoneToCreate(s) && UpdateAssociated(s).Some?
    ensures var s' := UpdateAssociated(s).value;
            Consistent(s') && NoneToCreate(s') && AssociatedRight(s') && Reconcile(s') == Reconcile(s)
  {
    hide Consistent;
    UpdateKeeps(s);
    var s' := UpdateAssociated(s).value;
    RightStays(s');
    NothingCreated(s);
    NothingCreated(s');
  }

  lemma KeptHas(s: State, d: string)
    requires Consistent(s) && AssociatedRight(s) && d in s.domains && Has(Recorded(s), d)
    ensures Has(Recorded(DeleteUnused(s)), d)
  {
    hide Consistent, DeleteUnused;
    DeleteUnusedKeeps(s, d);
    var c :| c in Recorded(s) && c.domain == d;
    assert c in Recorded(DeleteUnused(s));
  }

  lemma {:induction false} HaveChecks(domains: seq<string>, checks: seq<Check>, d: string)
    requires Unchecked(domains, checks) == [] && d in domains
    ensures Has(checks, d)
    decreases |domains|
  {
    if d != domains[0] { HaveChecks(domains[1..], checks, d); }
  }

  lemma {:induction false} NoneUnwanted(checks: seq<Check>, domains: seq<string>)
    requires forall c :: c in checks ==> c.domain in domains
    ensures Unwanted(checks, domains) == []
    decreases |checks|
  {
    if checks != [] {
      assert checks[0] in checks;
      NoneUnwanted(checks[1..], domains);
    }
  }

  lemma WantedStay(s: State)
    requires Wanted(s)
    ensures DeleteUnused(s) == s
  {
    NoneUnwanted(Recorded(s), s.domains);
  }

  lemma DeletedOnce(s: State)
    requires Consistent(s) && NoneToCreate(s) && AssociatedRight(s)
    ensures var s' := DeleteUnused(s);
            && Consistent(s') && NoneToCreate(s') && AssociatedRight(s') && Wanted(s')
            && Reconcile(s') == Reconcile(s)
  {
    hide Consistent, DeleteUnused, Has, Associated;
    var s' := DeleteUnused(s);
    DeleteUnusedKeeps(s, "");
    forall d | d in s'.domains ensures Has(Recorded(s'), d) {
      HaveChecks(s.domains, Recorded(s), d);
      KeptHas(s, d);
    }
    AllHaveChecks(s'.domains, Recorded(s'));
    NothingCreated(s);
    NothingCreated(s');
    RightStays(s);
    RightStays(s');
    WantedStay(s');
  }

  /** Nothing is left to do but the alarms. */
  predicate Cleaned(s: State) {
    NoneToCreate(s) && AssociatedRight(s) && Wanted(s)
  }

  lemma OnlyAlarmsLeft(s: State)
    requires Cleaned(s)
    ensures Reconcile(s) == CreateAlarms(DeleteAlarms(s))
  {
    NothingCreated(s);
    RightStays(s);
    WantedStay(s);
  }

  /** Alarms are not what cleaning up is about. */
  lemma StillCleaned(s: State, s': State)
    requires Cleaned(s) && s' == s.(alarms := s'.alarms, alarmed := s'.alarmed)
    ensures Cleaned(s')
  {
  }

  lemma AlarmsDeletedOnce(s: State)
    requires Consistent(s) && Cleaned(s)
    ensures var s' := DeleteAlarms(s);
            Consistent(s') && Cleaned(s') && Alarms(s') == [] && Reconcile(s') == Reconcile(s)
  {
    hide Tracked, Associated, Referenced, Cleaned, Reconcile;
    var s' := DeleteAlarms(s);
    SameChecks(s, s');
    StillCleaned(s, s');
    OnlyAlarmsLeft(s);
    OnlyAlarmsLeft(s');
  }

  /** With no other alarms than those for the checks, to create them makes just those. */
  lemma AlarmsMade(s: State)
    requires AlarmsTracked(s) && s.topic && (Alarms(s) == [] || Alarms(s) == IdList(Recorded(s)))
    ensures CreateAlarms(s).Some?
    ensures var s' := CreateAlarms(s).value;
            && AlarmsTracked(s') && s'.topic && Alarms(s') == IdList(Recorded(s'))
            && s' == s.(alarms := s'.alarms, alarmed := s'.alarmed)
            && CreateAlarms(DeleteAlarms(s)) == Some(s') == CreateAlarms(DeleteAlarms(s'))
  {
    var ids := Ids(Recorded(s));
    IdsListed(Recorded(s));
    if Recorded(s) == [] { assert IdList([]) == []; }
    assert s.alarmed == (set a | a in Alarms(s));
    var s' := CreateAlarms(s).value;
    assert s'.alarmed == ids;
    assert DeleteAlarms(s).alarmed == {} && DeleteAlarms(s').alarmed == {};
    assert {} + ids == ids;
    if Recorded(s) != [] { assert Alarms(s') != []; }
  }

  /** Once there is an alarm for every check, everything is as it is to be. */
  lemma AlarmsCreated(s: State)
    requires Consistent(s) && Cleaned(s) && s.topic && (Alarms(s) == [] || Alarms(s) == IdList(Recorded(s)))
    ensures CreateAlarms(s).Some?
    ensures var s' := CreateAlarms(s).value;
            && Consistent(s') && Cleaned(s') && s'.topic && Alarms(s') == IdList(Recorded(s'))
            && s' == s.(alarms := s'.alarms, alarmed := s'.alarmed)
            && Reconcile(s') == Some(s') == Reconcile(s)
  {
    hide Tracked, Associated, Referenced, Cleaned, Reconcile, CreateAlarms, DeleteAlarms, AlarmsTracked;
    AlarmsMade(s);
    var s' := CreateAlarms(s).value;
    SameChecks(s, s');
    StillCleaned(s, s');
    OnlyAlarmsLeft(s);
    OnlyAlarmsLeft(s');
  }

  lemma AlarmsAreThere(s: State)
    requires AlarmsTracked(s) && s.topic && Alarms(s) == IdList(Recorded(s))
    ensures CreateAlarms(s) == Some(s)
  {
    IdsListed(Recorded(s));
    if Recorded(s) != [] { assert Alarms(s) != []; }
    assert s.alarmed + Ids(Recorded(s)) == s.alarmed;
  }

  lemma AlarmedIsDone(s: State)
    requires Consistent(s) && Cleaned(s) && s.topic && Alarms(s) == IdList(Recorded(s))
    ensures Reconcile(s) == Some(s)
  {
    hide Tracked, Associated, Referenced, Cleaned, Reconcile, CreateAlarms;
    AlarmsCreated(s);
    AlarmsAreThere(s);
  }

  // ---- runs ----

  datatype Run = Run(state: State, kind: P.Kind, todo: P.Pipeline)

  /** The next task is tried, and a call of its may fail, or the scan starts the pipeline
      again. */
  datatype Event = Try(ok: bool) | Again

  function Begin(s: State, kind: P.Kind): Run {
    Run(s, kind, P.TasksOf(kind))
  }

  function Step(r: Run, e: Event): Run {
    match e
    case Try(ok) =>
      if r.todo.Finished? then r
      else
        var s' := Effect(r.todo.task, r.state);
        if !ok || s'.None? then r else Run(s'.value, r.kind, r.todo.rest)
    case Again =>
      if r.todo.Finished? || r.kind.DedicatedToCdnWaf? then r else Begin(r.state, P.RestartKind(r.kind))
  }

  function Steps(r: Run, events: seq<Event>): Run
    decreases |events|
  {
    if events == [] then r else Steps(Step(r, events[0]), events[1..])
  }

  /** The pipelines that set monitoring up. */
  predicate SetsUp(kind: P.Kind) {
    kind.CdnWafProvision? || kind.DedicatedToCdnWaf? || kind.CdnToCdnWaf?
  }

  /** An instance that has no monitoring yet. */
  ghost predicate Unmonitored(s: State) {
    Consistent(s) && Recorded(s) == [] && Alarms(s) == [] && s.associated.None? && s.domains != []
  }

  /** After k steps of an update. */
  ghost predicate Renewed(s: State, k: nat) {
    && Consistent(s)
    && (k >= 1 ==> s.topic)
    && (k >= 4 ==> NoneToCreate(s))
    && (k >= 5 ==> AssociatedRight(s))
    && (k >= 6 ==> Wanted(s))
    && (k == 7 ==> Alarms(s) == [])
    && (k >= 8 ==> Alarms(s) == IdList(Recorded(s)))
  }

  /** After k steps of a setup: the association, once there is one, is with the first
      check, and alarms, once there are any, are for all checks. */
  ghost predicate SetUp(s: State, k: nat) {
    && Consistent(s) && Wanted(s) && s.domains != []
    && (k >= 1 ==> s.topic)
    && (k >= 3 ==> NoneToCreate(s))
    && (k >= 4 ==> s.associated.Some?)
    && (k >= 5 ==> Alarms(s) == IdList(Recorded(s)))
    && (s.associated.Some? ==> NoneToCreate(s) && Recorded(s) != [] && s.associated.value == Recorded(s)[0])
    && (Alarms(s) != [] ==> NoneToCreate(s) && Alarms(s) == IdList(Recorded(s)))
  }

  /** Where the steps of an update lead from a state. */
  function Goal(s: State): Option<State> {
    Reconcile(s.(topic := true))
  }

  lemma RenewedStep(s: State, k: nat)
    requires k < |RENEWED| && Renewed(s, k) && Effect(RENEWED[k], s).Some?
    ensures var s' := Effect(RENEWED[k], s).value; Renewed(s', k + 1) && Goal(s') == Goal(s)
  {
    hide Consistent, CreateNew, UpdateAssociated, DeleteUnused, DeleteAlarms, CreateAlarms, Reconcile,
         NoneToCreate, AssociatedRight, Wanted;
    if k > 0 { TopicStays(s, RENEWED[k]); }
    if k == 0 {
      assert Consistent(s.(topic := true)) by { TopicIsAside(s); }
    } else if k == 3 {
      CreatedOnce(s);
    } else if k == 4 {
      AssociatedOnce(s);
    } else if k == 5 {
      DeletedOnce(s);
    } else if k == 6 {
      AlarmsDeletedOnce(s);
    } else if k == 7 {
      AlarmsCreated(s);
    }
  }

  lemma TopicIsAside(s: State)
    requires Consistent(s)
    ensures Consistent(s.(topic := true))
  {
  }

  /** The checks that are created are for domains of the instance. */
  lemma CreatedAreWanted(s: State)
    requires Consistent(s) && Wanted(s) && CreateNew(s).Some?
    ensures Wanted(CreateNew(s).value)
  {
    hide Consistent, CreateNew, Has;
    var s' := CreateNew(s).value;
    CreateNewKeeps(s, "");
    forall c | c in Recorded(s') ensures c.domain in s'.domains {
      CreateNewKeeps(s, c.domain);
      HasCounts(Recorded(s'), c.domain);
      HasCounts(Recorded(s), c.domain);
      ListedCounts(s.domains, c.domain);
      assert Has(Recorded(s'), c.domain) by { HasOne(Recorded(s'), c); }
      if Has(Recorded(s), c.domain) { WantedHas(s, c.domain); }
    }
  }

  lemma HasOne(checks: seq<Check>, c: Check)
    requires c in checks
    ensures Has(checks, c.domain)
  {
  }

  lemma WantedHas(s: State, d: string)
    requires Wanted(s) && Has(Recorded(s), d)
    ensures d in s.domains
  {
  }

  lemma SetUpCreates(s: State)
    requires SetUp(s, 2) && CreateNew(s).Some?
    ensures SetUp(CreateNew(s).value, 3) && Goal(CreateNew(s).value) == Goal(s)
  {
    hide Consistent, CreateNew, Reconcile, Wanted, NoneToCreate;
    CreatedOnce(s);
    CreatedAreWanted(s);
    CreateNewKeeps(s, "");
    if NoneToCreate(s) { NothingCreated(s); }
  }

  /** With all checks there, to associate the first is to associate the first wanted. */
  lemma AssociatedAlike(s: State)
    requires Consistent(s) && NoneToCreate(s) && Wanted(s) && s.domains != []
    ensures Recorded(s) != []
    ensures s.associated.None? ==> Associate(s) == UpdateAssociated(s)
  {
    HaveChecks(s.domains, Recorded(s), s.domains[0]);
    assert Recorded(s)[0] in Recorded(s);
  }

  lemma SetUpAssociates(s: State)
    requires SetUp(s, 3) && Associate(s).Some?
    ensures SetUp(Associate(s).value, 4) && Goal(Associate(s).value) == Goal(s)
  {
    hide Reconcile, Tracked, AlarmsTracked, Referenced;
    AssociatedAlike(s);
    if s.associated.None? {
      AssociatedOnce(s);
    } else {
      assert Associate(s).value == s;
    }
  }

  lemma SetUpIsCleaned(s: State)
    requires SetUp(s, 4)
    ensures Cleaned(s)
  {
    assert Recorded(s)[0] in Recorded(s);
  }

  lemma SetUpStep(s: State, k: nat)
    requires k < |SETUP| && SetUp(s, k) && Effect(SETUP[k], s).Some?
    ensures var s' := Effect(SETUP[k], s).value; SetUp(s', k + 1) && Goal(s') == Goal(s)
  {
    hide Consistent, CreateNew, Associate, CreateAlarms, Reconcile, NoneToCreate, Wanted;
    if k > 0 { TopicStays(s, SETUP[k]); }
    if k == 0 {
      assert Consistent(s.(topic := true)) by { TopicIsAside(s); }
      ChecksAreAside(s);
    } else if k == 2 {
      SetUpCreates(s);
    } else if k == 3 {
      SetUpAssociates(s);
    } else if k == 4 {
      SetUpIsCleaned(s);
      AlarmsCreated(s);
    }
  }

  lemma ChecksAreAside(s: State)
    requires Wanted(s)
    ensures Wanted(s.(topic := true)) && (NoneToCreate(s) ==> NoneToCreate(s.(topic := true)))
  {
  }

  /** What is left to do, after k steps of the chain that the run is on. */
  ghost predicate On(r: Run, k: nat, goal: Option<State>) {
    && Goal(r.state) == goal
    && if r.kind.CdnWafUpdate?
       then k <= |RENEWED| && Only(r.todo, Monitoring) == RENEWED[k..] && Renewed(r.state, k)
       else SetsUp(r.kind) && k <= |SETUP| && Only(r.todo, Monitoring) == SETUP[k..] && SetUp(r.state, k)
  }

  lemma ChainOf(kind: P.Kind)
    requires SetsUp(kind) || kind.CdnWafUpdate?
    ensures Only(P.TasksOf(kind), Monitoring) == if kind.CdnWafUpdate? then RENEWED else SETUP
  {
    hide Only, P.TasksOf;
    match kind {
      case CdnWafUpdate => UpdateTasks(O.CdnWaf, Monitoring);
      case CdnWafProvision => ProvisionTasks(O.CdnWaf, Monitoring);
      case DedicatedToCdnWaf => MoveTasks(O.DedicatedAlb, O.CdnWaf, Monitoring);
      case CdnToCdnWaf => MoveTasks(O.Cdn, O.CdnWaf, Monitoring);
    }
  }

  lemma BeginsOn(s: State, kind: P.Kind)
    requires if kind.CdnWafUpdate? then Renewed(s, 0) else SetsUp(kind) && SetUp(s, 0)
    ensures On(Begin(s, kind), 0, Goal(s))
  {
    hide Only, P.TasksOf, Renewed, SetUp, Goal;
    ChainOf(kind);
    assert RENEWED[0..] == RENEWED && SETUP[0..] == SETUP;
  }

  /** The first of what is left of the chain is taken. */
  lemma OneTaken(chain: seq<P.Task>, k: nat, todo: P.Pipeline)
    requires k <= |chain| && todo.Then? && Is(todo.task, Monitoring) && Only(todo, Monitoring) == chain[k..]
    ensures k < |chain| && chain[k] == todo.task && Only(todo.rest, Monitoring) == chain[k + 1..]
  {
    hide Only, Is;
    Take(todo.task, todo.rest, Monitoring);
    assert chain[k..][0] == todo.task && chain[k..][1..] == chain[k + 1..];
    assert ([todo.task] + Only(todo.rest, Monitoring))[1..] == Only(todo.rest, Monitoring);
  }

  lemma TryStaysOn(r: Run, k: nat, goal: Option<State>) returns (k': nat)
    requires On(r, k, goal) && r.todo.Then? && Effect(r.todo.task, r.state).Some?
    ensures On(Step(r, Try(true)), k', goal)
  {
    var t := r.todo.task;
    hide Effect, Renewed, SetUp, Goal, Only, Is;
    if Is(t, Monitoring) {
      k' := k + 1;
      if r.kind.CdnWafUpdate? {
        OneTaken(RENEWED, k, r.todo);
        RenewedStep(r.state, k);
      } else {
        OneTaken(SETUP, k, r.todo);
        SetUpStep(r.state, k);
      }
    } else {
      k' := k;
      Pass(t, r.todo.rest, Monitoring);
      OtherIsAside(t, r.state);
    }
  }

  lemma OtherIsAside(t: P.Task, s: State)
    requires !Is(t, Monitoring)
    ensures Effect(t, s) == Some(s)
  {
  }

  lemma AgainStaysOn(r: Run, k: nat, goal: Option<State>) returns (k': nat)
    requires On(r, k, goal)
    ensures On(Step(r, Again), k', goal)
  {
    k' := k;
    if r.todo.Then? && !r.kind.DedicatedToCdnWaf? {
      k' := 0;
      StartsAgain(r, k, goal);
      hide On, Goal, Only, P.TasksOf, Renewed, SetUp;
      BeginsOn(r.state, P.RestartKind(r.kind));
    }
  }

  lemma StartsAgain(r: Run, k: nat, goal: Option<State>)
    requires On(r, k, goal)
    ensures Goal(r.state) == goal
    ensures var kind := P.RestartKind(r.kind);
            if kind.CdnWafUpdate? then Renewed(r.state, 0) else SetsUp(kind) && SetUp(r.state, 0)
  {
    hide Goal, Only, Consistent, Wanted, NoneToCreate;
  }

  lemma {:induction false} RunStaysOn(r: Run, k: nat, goal: Option<State>, events: seq<Event>) returns (k': nat)
    requires On(r, k, goal)
    ensures On(Steps(r, events), k', goal)
    decreases |events|
  {
    hide On, Effect;
    k' := k;
    if events != [] {
      var k1 := k;
      match events[0] {
        case Try(ok) =>
          if ok && r.todo.Then? && Effect(r.todo.task, r.state).Some? { k1 := TryStaysOn(r, k, goal); }
        case Again => k1 := AgainStaysOn(r, k, goal);
      }
      k' := RunStaysOn(Step(r, events[0]), k1, goal, events[1..]);
    }
  }

  lemma FinishedOn(r: Run, k: nat, goal: Option<State>)
    requires On(r, k, goal) && r.todo.Finished?
    ensures goal == Some(r.state)
  {
    hide Reconcile, Consistent, NoneToCreate, AssociatedRight, Wanted;
    if !r.kind.CdnWafUpdate? { SetUpIsCleaned(r.state); }
    assert r.state.(topic := true) == r.state;
    AlarmedIsDone(r.state);
  }

  /** The monitoring that a pipeline to the plan with monitoring starts from. */
  ghost predicate Startable(s: State, kind: P.Kind) {
    (kind.CdnWafUpdate? && Consistent(s)) || (SetsUp(kind) && Unmonitored(s))
  }

  lemma StartsOn(s: State, kind: P.Kind)
    requires Startable(s, kind)
    ensures On(Begin(s, kind), 0, Goal(s))
  {
    hide Consistent, Goal;
    BeginsOn(s, kind);
  }

  /** For an instance without monitoring, to set it up and to reconcile it is the same. */
  lemma SetupIsReconciling(s: State)
    requires Unmonitored(s) && s.topic
    ensures Provision(s) == Reconcile(s)
  {
    hide Consistent, CreateNew, Associate, UpdateAssociated, CreateAlarms;
    if CreateNew(s).Some? {
      var s1 := CreateNew(s).value;
      CreatedOnce(s);
      CreatedAreWanted(s);
      CreateNewKeeps(s, "");
      AssociatedAlike(s1);
      if UpdateAssociated(s1).Some? {
        var s2 := UpdateAssociated(s1).value;
        UpdateKeeps(s1);
        WantedStay(s2);
      }
    }
  }

  // ---- main results ----

  /**
    To start a chain again changes nothing about where its monitoring ends: whatever calls
    failed and however often a pipeline was started again, a run that finishes has left
    what its steps leave when they go through at once; and a move that goes on as an update
    too.
   */
  lemma MonitoringIsConfluent(s: State, kind: P.Kind, events: seq<Event>)
    requires Startable(s, kind) && Steps(Begin(s, kind), events).todo.Finished?
    ensures var end := Some(Steps(Begin(s, kind), events).state);
            && Reconcile(s.(topic := true)) == end
            && (SetsUp(kind) ==> Provision(s.(topic := true)) == end)
  {
    hide On, Consistent, Provision, Reconcile;
    StartsOn(s, kind);
    var k := RunStaysOn(Begin(s, kind), 0, Goal(s), events);
    FinishedOn(Steps(Begin(s, kind), events), k, Goal(s));
    if SetsUp(kind) {
      TopicIsAside(s);
      SetupIsReconciling(s.(topic := true));
    }
  }

  /** Whenever a run is about to delete the checks that are no longer wanted, the one that
      protects the distribution is not among them. */
  lemma DeletesOnlyUnassociated(s: State, kind: P.Kind, events: seq<Event>)
    requires Startable(s, kind)
    ensures var r := Steps(Begin(s, kind), events);
            r.todo.Then? && r.todo.task.DeleteUnusedHealthChecksTask? ==>
              && (r.state.associated.Some? ==>
                    r.state.associated.value.domain in r.state.domains
                    && r.state.associated.value !in Unwanted(Recorded(r.state), r.state.domains))
              && (r.state.associated.None? ==> r.state.shielded.None?)
  {
    hide On, Consistent;
    StartsOn(s, kind);
    var k := RunStaysOn(Begin(s, kind), 0, Goal(s), events);
    var r := Steps(Begin(s, kind), events);
    if r.todo.Then? && r.todo.task.DeleteUnusedHealthChecksTask? { AboutToDelete(r, k, Goal(s)); }
  }

  lemma AboutToDelete(r: Run, k: nat, goal: Option<State>)
    requires On(r, k, goal) && r.todo.Then? && r.todo.task.DeleteUnusedHealthChecksTask?
    ensures Consistent(r.state) && AssociatedRight(r.state)
    ensures r.state.associated.Some? ==> r.state.associated.value !in Unwanted(Recorded(r.state), r.state.domains)
    ensures r.state.associated.None? ==> r.state.shielded.None?
  {
    hide Only, NoneToCreate, Wanted, Tracked, AlarmsTracked, Referenced, Goal;
    Take(r.todo.task, r.todo.rest, Monitoring);
    var chain := if r.kind.CdnWafUpdate? then RENEWED else SETUP;
    assert chain[k..][0] == r.todo.task;
    assert chain[k] == r.todo.task;
    UnwantedIs(Recorded(r.state), r.state.domains);
  }

  // ---- a deprovision takes it all down ----

  /** What a task of a deprovision does to health checks, alarms and association. */
  function Remove(t: D.Removal, s: State): State {
    match t
    case DeleteAlarms => DeleteAlarms(s)
    case Disassociate => if s.associated.None? then s else s.(associated := None, shielded := None)
    case DeleteChecks => DeleteAll(s, Recorded(s))
    case DeleteTopic => s.(topic := false)
    case _ => s
  }

  function RemoveAll(tasks: seq<D.Removal>, s: State): State
    decreases |tasks|
  {
    if tasks == [] then s else RemoveAll(tasks[1..], Remove(tasks[0], s))
  }

  /** What is gone after it. */
  predicate Down(t: D.Removal, s: State) {
    match t
    case DeleteAlarms => s.alarmed == {}
    case Disassociate => s.associated.None? && s.shielded.None?
    case DeleteChecks => Recorded(s) == [] && s.health == map[]
    case DeleteTopic => !s.topic
    case _ => true
  }

  /** What AWS has is recorded, but for the association with a check that was deleted. */
  ghost predicate Recognized(s: State) {
    && s.health.Keys == Ids(Recorded(s)) && AlarmsTracked(s)
    && (s.associated.None? ==> s.shielded.None?)
  }

  lemma {:induction false} WithoutAll(checks: seq<Check>, ids: set<nat>)
    requires forall c :: c in checks ==> c.id in ids
    ensures WithoutIds(checks, ids) == []
    decreases |checks|
  {
    if checks != [] {
      assert checks[0] in checks;
      WithoutAll(checks[1..], ids);
    }
  }

  lemma AllChecksGo(s: State)
    requires s.health.Keys == Ids(Recorded(s))
    ensures var s' := DeleteAll(s, Recorded(s));
            Recorded(s') == [] && s'.health == map[] && s' == s.(checks := s'.checks, health := s'.health)
  {
    DeleteAllIs(s, Recorded(s));
    WithoutAll(Recorded(s), Ids(Recorded(s)));
    assert (s.health - Ids(Recorded(s))).Keys == {};
  }

  lemma TakesDown(t: D.Removal, s: State)
    requires Recognized(s)
    ensures Recognized(Remove(t, s)) && Down(t, Remove(t, s))
    ensures forall u :: Down(u, s) ==> Down(u, Remove(t, s))
  {
    if t.DeleteChecks? { AllChecksGo(s); }
  }

  /** Whatever order its tasks run in, and however often, what they are for is gone. */
  lemma {:induction false} RunTakesDown(tasks: seq<D.Removal>, s: State)
    requires Recognized(s)
    ensures forall t :: t in tasks || Down(t, s) ==> Down(t, RemoveAll(tasks, s))
    decreases |tasks|
  {
    hide Remove, Recognized, Down;
    if tasks != [] {
      TakesDown(tasks[0], s);
      RunTakesDown(tasks[1..], Remove(tasks[0], s));
      assert forall t :: t in tasks <==> t == tasks[0] || t in tasks[1..];
    }
  }

  /** A deprovision that has gone through all its tasks, some of them more than once, has
      left no check, alarm, association or topic; and by the time it deletes the checks, in
      the order of its chain, none of them protects the distribution. */
  lemma NoMonitoringIsLeft(s: State, tasks: seq<D.Removal>)
    requires Consistent(s) && forall t :: t in D.Removals(O.CdnWaf) ==> t in tasks
    ensures var s' := RemoveAll(tasks, s);
            && s'.health == map[] && s'.alarmed == {} && s'.shielded.None? && !s'.topic
            && Recorded(s') == [] && s'.associated.None?
    ensures forall k :: 0 <= k < |D.Removals(O.CdnWaf)| && D.Removals(O.CdnWaf)[k].DeleteChecks? ==>
              RemoveAll(D.Removals(O.CdnWaf)[..k], s).shielded.None?
  {
    hide RemoveAll, Remove;
    var chain := D.Removals(O.CdnWaf);
    assert chain[4] == D.DeleteAlarms && chain[5] == D.Disassociate && chain[6] == D.DeleteChecks
        && chain[8] == D.DeleteTopic;
    RunTakesDown(tasks, s);
    var s' := RemoveAll(tasks, s);
    assert Down(chain[4], s') && Down(chain[5], s') && Down(chain[6], s') && Down(chain[8], s');
    forall k | 0 <= k < |chain| && chain[k].DeleteChecks? ensures RemoveAll(chain[..k], s).shielded.None? {
      RunTakesDown(chain[..k], s);
      assert chain[..k][5] == D.Disassociate;
      assert Down(chain[..k][5], RemoveAll(chain[..k], s));
    }
  }
}
