/**
  Renewals whose selection changes the listener, and that a restart leaves stuck: from
  any steady instance on a listener that is not the least loaded one, and so from an
  instance that was just provisioned beside an unused listener.
 */
module Stranding {
  import opened Wrappers
  import opened Records
  import opened Tasks
  import opened Pipelines
  import opened Frames
  import opened Provisioning
  import opened Rotation
  import opened PhaseOrder
  import opened RotationRuns
  import opened RotationProgress
  import opened Restarts
  import Lifecycle

  /** The listeners that a rotation chooses from. */
  function Candidates(s: State, kind: Kind): seq<Listener> {
    if kind.DedicatedUpdate? || kind.DedicatedRenewal? then s.dedicated else s.shared
  }

  /** The selection of this kind of rotation comes next but for tasks that issue the
      certificate or change DNS, and the promotion comes right after it. */
  predicate Leads(todo: Pipeline, kind: Kind)
    decreases todo
  {
    todo.Then? &&
    if todo.task.SelectAlbTask? || todo.task.SelectDedicatedAlbTask? then
      && todo.task.SelectDedicatedAlbTask? == (kind.DedicatedUpdate? || kind.DedicatedRenewal?)
      && todo.rest.Then? && todo.rest.task.AddCertificateToAlbTask?
    else
      (RotationProgress.RowTask(todo.task) || RotationProgress.LoopTask(todo.task)) && Leads(todo.rest, kind)
  }

  predicate SameListeners(s: State, s': State) {
    s'.attached == s.attached && s'.shared == s.shared && s'.dedicated == s.dedicated
  }

  lemma LoopLeavesListeners(t: Task, s: State, budget: nat)
    requires RotationProgress.LoopTask(t) || t.AnswerChallengesTask?
    ensures SameListeners(s, Execute(t, false, s, budget).state)
  {
    match t {
      case CreateTxtTask =>
        if s.pending.Some? && s.pending.value in s.certificates {
          TxtFrame(s, s.certificates[s.pending.value].challenges, budget);
        }
      case WaitForChangesTask => WaitFrame(s, budget);
      case RemoveOldDnsTask =>
        if s.current.Some? && s.current.value in s.certificates {
          RemovalFrame(s, s.certificates[s.current.value].challenges);
        }
      case CreateAliasTask => AliasFrame(s, s.domains, budget);
      case AnswerChallengesTask =>
        if s.pending.Some? && s.pending.value in s.certificates { AnswerFrame(s, s.pending.value, 0, budget); }
    }
  }

  lemma IssuingLeavesListeners(t: Task, s: State, budget: nat)
    requires RotationProgress.RowTask(t) || RotationProgress.LoopTask(t)
    ensures SameListeners(s, Execute(t, false, s, budget).state)
  {
    if RotationProgress.LoopTask(t) || t.AnswerChallengesTask? {
      hide Execute;
      LoopLeavesListeners(t, s, budget);
    } else {
      hide NewChallenges, AllAnswered;
    }
  }

  lemma SelectChooses(s: State, listeners: seq<Listener>, budget: nat)
    requires listeners != [] && SelectFrom(s, listeners, false, budget).ok
    ensures SelectFrom(s, listeners, false, budget).state.listener == Some(Lowest(listeners, s.attached))
  {
  }

  lemma SelectingChooses(r: Run, ph: Phase, g: Plan, all: bool, m: Ready)
    requires Going(r, ph, g, all, m) && Leads(r.todo, r.kind)
    requires r.todo.task.SelectAlbTask? || r.todo.task.SelectDedicatedAlbTask?
    ensures var r' := Step(r, Try(Enough(r.state)));
            && Candidates(r.state, r.kind) != []
            && r'.state.listener == Some(Lowest(Candidates(r.state, r.kind), r.state.attached))
            && r'.todo == r.todo.rest
  {
    var s, list := r.state, Candidates(r.state, r.kind);
    hide InRotation, Lowest, Holds, Safe, Prepared, Enough, SelectFrom;
    TaskSucceeds(r, ph, g, all, m);
    AvailableNow(s, m);
    assert Execute(r.todo.task, false, s, Enough(s)) == SelectFrom(s, list, false, Enough(s));
    SelectChooses(s, list, Enough(s));
  }

  /** Tries bring a rotation to its promotion, on the listener that was the least loaded
      of its candidates when it began. */
  lemma {:induction false} SelectsTheLowest(r: Run, ph: Phase, g: Plan, all: bool, m: Ready)
    returns (events: seq<Event>)
    requires Going(r, ph, g, all, m) && Leads(r.todo, r.kind) && !Provisions(r.kind)
    ensures AdmissibleRun(r, g, events)
    ensures var r' := Steps(r, events);
            && Candidates(r.state, r.kind) != []
            && r'.todo.Then? && r'.todo.task.AddCertificateToAlbTask?
            && r'.state.listener == Some(Lowest(Candidates(r.state, r.kind), r.state.attached))
    decreases r.todo
  {
    hide Going, Step, Enough, Lowest;
    var e := Try(Enough(r.state));
    if r.todo.task.SelectAlbTask? || r.todo.task.SelectDedicatedAlbTask? {
      SelectingChooses(r, ph, g, all, m);
      events := [e];
      assert events[1..] == [];
      assert Steps(r, events) == Steps(Step(r, e), []);
    } else {
      NextTry(r, ph, g, all, m);
      var ph1, m1 := TryGoes(r, ph, g, all, m, Enough(r.state));
      var r1 := Step(r, e);
      assert SameListeners(r.state, r1.state) && r1.kind == r.kind by { TryLeavesListeners(r, Enough(r.state)); }
      var rest := SelectsTheLowest(r1, ph1, g, all, m1);
      events := [e] + rest;
      assert events[1..] == rest;
    }
  }

  lemma TryLeavesListeners(r: Run, budget: nat)
    requires r.todo.Then? && !Provisions(r.kind)
    requires RotationProgress.RowTask(r.todo.task) || RotationProgress.LoopTask(r.todo.task)
    ensures SameListeners(r.state, Step(r, Try(budget)).state) && Step(r, Try(budget)).kind == r.kind
  {
    hide Execute;
    IssuingLeavesListeners(r.todo.task, r.state, budget);
  }

  lemma LeadsAfterIssue(p: Partition, rest: Pipeline, kind: Kind)
    requires Leads(rest, kind)
    ensures Leads(Issue(p, rest), kind) && Leads(Reissue(p, rest), kind)
  {
    assert Leads(Then(RetrieveCertificateTask, Then(UploadTask(p), rest)), kind);
    assert Leads(Then(AnswerChallengesTask, Then(RetrieveCertificateTask, Then(UploadTask(p), rest))), kind);
    var q := Then(AnswerChallengesTask, Then(RetrieveCertificateTask, Then(UploadTask(p), rest)));
    assert Leads(Then(WaitForChangesTask, q), kind) && Leads(Then(RemoveOldDnsTask, q), kind);
    assert Leads(Then(CreateTxtTask, Then(WaitForChangesTask, q)), kind);
    assert Leads(Then(CreateTxtTask, Then(WaitForChangesTask, Then(RemoveOldDnsTask, q))), kind) by {
      assert Leads(Then(WaitForChangesTask, Then(RemoveOldDnsTask, q)), kind);
    }
  }

  lemma RotationLeads(kind: Kind)
    requires AlbRotation(kind)
    ensures Leads(TasksOf(kind), kind)
  {
    var p := PointDns(CleanUpAlb(GovCloud));
    match kind {
      case AlbUpdate => LeadsAfterIssue(GovCloud, ToAlb(p), kind);
      case AlbRenewal => LeadsAfterIssue(GovCloud, ToAlb(p), kind);
      case DedicatedUpdate => LeadsAfterIssue(GovCloud, ToDedicatedAlb(AlbWaf(p)), kind);
      case DedicatedRenewal => LeadsAfterIssue(GovCloud, ToDedicatedAlb(p), kind);
    }
  }

  /** After a restart, and without another, this run does not finish. */
  ghost predicate StuckAfterRestart(r: Run) {
    forall after: seq<Event> :: (forall e :: e in after ==> !e.Restart?) ==> Steps(Step(r, Restart), after).todo.Then?
  }

  lemma AllStuck(s: State, kind: Kind, domains: seq<string>, before: seq<Event>)
    requires Startable(s, kind, domains) && AlbRotation(kind)
    requires AdmissibleRun(Begin(Request(s, kind, domains), kind), PlanOf(s, kind, domains), before)
    requires var r := Steps(Begin(Request(s, kind, domains), kind), before);
             r.todo.Then? && r.todo.task.AddCertificateToAlbTask? && r.state.listener != s.listener
    ensures StuckAfterRestart(Steps(Begin(Request(s, kind, domains), kind), before))
  {
    hide Steady, Step, Steps, AdmissibleRun;
    var r := Steps(Begin(Request(s, kind, domains), kind), before);
    forall after: seq<Event> | forall e :: e in after ==> !e.Restart?
      ensures Steps(Step(r, Restart), after).todo.Then?
    {
      RestartAfterSelection(s, kind, domains, before, after);
    }
  }

  lemma AtItsListener(s: State)
    requires Steady(s) && PlaceNow(s).value.AtListener?
    ensures forall kind, domains :: AlbRotation(kind) ==> Startable(s, kind, domains)
  {
  }

  /** A rotation of an instance that is not on the least loaded of its candidates comes,
      by tries alone, to a point where a restart leaves it stuck. */
  lemma RotationGetsStranded(s: State, kind: Kind, domains: seq<string>) returns (before: seq<Event>)
    requires Startable(s, kind, domains) && Available(s) && AlbRotation(kind)
    requires Some(Lowest(Candidates(s, kind), s.attached)) != s.listener
    ensures AdmissibleRun(Begin(Request(s, kind, domains), kind), PlanOf(s, kind, domains), before)
    ensures StuckAfterRestart(Steps(Begin(Request(s, kind, domains), kind), before))
  {
    var r0 := Begin(Request(s, kind, domains), kind);
    var g := PlanOf(s, kind, domains);
    StartGoes(s, kind, domains);
    RotationLeads(kind);
    hide Going, Leads, Steady, Available, Lowest, TasksOf;
    before := SelectsTheLowest(r0, START, g, Renewal(kind), StartOf(kind));
    AllStuck(s, kind, domains, before);
  }

  // ---- it happens ----

  /** A new instance, two shared listeners without certificates, and a dedicated one. */
  lemma TwoListeners(a: Listener, c: Listener, b: Listener) returns (s0: State)
    requires a != c && a != b && c != b
    ensures New(s0) && Placeable(s0, AlbProvision) && s0.shared == [a, c]
    ensures Listed(s0.shared, s0.attached.Keys) && Listed(s0.dedicated, s0.attached.Keys)
    ensures s0.attached == map[a := {}, c := {}, b := {}] && Choice(s0, AlbProvision) == Some(a)
  {
    s0 := State(["example.gov"], None, None, None, None, None, None, None, None, [], map[], {},
                map[a := {}, c := {}, b := {}], map[], map[], map[], {}, {}, [], [a, c], [b], 0, 0);
    assert [a, c][1..] == [c];
    assert Lowest([c], s0.attached) == c && Lowest([a, c], s0.attached) == a;
  }

  /** Its provisioning puts the certificate on the first, so the second is the less
      loaded one from then on. */
  lemma SecondIsLower(s0: State, s: State, a: Listener, c: Listener, b: Listener)
    requires a != c && a != b && c != b
    requires s0.shared == [a, c] && s0.attached == map[a := {}, c := {}, b := {}]
    requires InUseNow(s0, s, AlbProvision, 13) && Choice(s0, AlbProvision) == Some(a)
    ensures s.listener == Some(a) && s.shared == [a, c] && Lowest(s.shared, s.attached) == c
  {
    assert s.attached[a] == {} + {ArnOf(s0, AlbProvision)};
    assert s.attached[c] == {};
    assert [a, c][1..] == [c];
    assert Lowest([c], s.attached) == c;
  }

  /** A provisioning, and a renewal of the instance it leaves, that a restart between
      selection and promotion leaves stuck. */
  lemma ARenewalGetsStranded() returns (s0: State, provisioning: seq<Event>, renewing: seq<Event>)
    ensures New(s0)
    ensures var provisioned := Steps(Begin(s0, AlbProvision), provisioning);
            && provisioned.todo.Finished? && Steady(provisioned.state)
            && StuckAfterRestart(Steps(Begin(provisioned.state, AlbRenewal), renewing))
  {
    hide New, InUseNow, Steady, StuckAfterRestart, Listed;
    var a, c, b := Listener("alb-0", "listener-0"), Listener("alb-1", "listener-1"), Listener("alb-2", "listener-2");
    assert |"alb-0"| == 5 && "alb-0"[4] != "alb-1"[4] && "alb-0"[4] != "alb-2"[4] && "alb-1"[4] != "alb-2"[4];
    s0 := TwoListeners(a, c, b);
    provisioning := Lifecycle.ProvisioningFinishes(s0, AlbProvision, []);
    var s := Steps(Begin(s0, AlbProvision), provisioning).state;
    assert Steps(Begin(s0, AlbProvision), []) == Begin(s0, AlbProvision);
    Lifecycle.TopIsAvailable(s0, s, AlbProvision);
    SecondIsLower(s0, s, a, c, b);
    AtItsListener(s);
    assert Request(s, AlbRenewal, s.domains) == s;
    renewing := RotationGetsStranded(s, AlbRenewal, s.domains);
  }
}
