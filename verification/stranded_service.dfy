/**
  A run that a restart after the selection has stranded keeps every kept domain served.

  It does what a rotation would do that still knew where the old certificate is, its
  shadow, until it comes to take that certificate off: then it looks in the wrong place,
  and the shadow stops there.
 */
module StrandedService {
  import opened Wrappers
  import opened Records
  import opened Tasks
  import opened Pipelines
  import opened Rotation
  import opened PhaseOrder
  import opened RotationRuns
  import opened Restarts

  /** The same but for where the instance thinks it is and was. */
  function Placed(s: State, l: Option<Listener>, p: Option<Listener>): State {
    s.(listener := l, previous := p)
  }

  predicate Alike(o: Outcome, sh: Outcome, l: Option<Listener>, p: Option<Listener>) {
    o.ok == sh.ok && o.state == Placed(sh.state, l, p)
  }

  // ---- tasks do not look at it ----

  lemma {:induction false} TxtsAlike(sh: State, todo: seq<Challenge>, budget: nat,
                                     l: Option<Listener>, p: Option<Listener>)
    ensures Alike(UpsertTxts(Placed(sh, l, p), todo, budget), UpsertTxts(sh, todo, budget), l, p)
    decreases |todo|
  {
    if todo == [] {
    } else if todo[0].answered {
      TxtsAlike(sh, todo[1..], budget, l, p);
    } else if budget > 0 {
      assert UpsertTxt(Placed(sh, l, p), todo[0]) == Placed(UpsertTxt(sh, todo[0]), l, p);
      TxtsAlike(UpsertTxt(sh, todo[0]), todo[1..], budget - 1, l, p);
    }
  }

  lemma {:induction false} WaitsAlike(sh: State, budget: nat, l: Option<Listener>, p: Option<Listener>)
    ensures Alike(WaitForChanges(Placed(sh, l, p), budget), WaitForChanges(sh, budget), l, p)
    decreases |sh.changeIds|
  {
    if sh.changeIds != [] && budget > 0 {
      assert WaitOne(Placed(sh, l, p)) == Placed(WaitOne(sh), l, p);
      WaitsAlike(WaitOne(sh), budget - 1, l, p);
    }
  }

  lemma {:induction false} RemovalsAlike(sh: State, todo: seq<Challenge>, l: Option<Listener>, p: Option<Listener>)
    ensures DeleteOlds(Placed(sh, l, p), todo) == Placed(DeleteOlds(sh, todo), l, p)
    decreases |todo|
  {
    if todo == [] {
    } else if todo[0].domain in sh.domains {
      RemovalsAlike(sh, todo[1..], l, p);
    } else {
      assert DeleteOldRecords(Placed(sh, l, p), todo[0]) == Placed(DeleteOldRecords(sh, todo[0]), l, p);
      RemovalsAlike(DeleteOldRecords(sh, todo[0]), todo[1..], l, p);
    }
  }

  lemma UpsertAlike(sh: State, domain: string, target: Target, l: Option<Listener>, p: Option<Listener>)
    ensures UpsertAlias(Placed(sh, l, p), domain, target) == Placed(UpsertAlias(sh, domain, target), l, p)
    ensures UpsertAlias(sh, domain, target).internal == sh.internal
  {
  }

  lemma {:induction false} AliasesAlike(sh: State, todo: seq<string>, budget: nat,
                                        l: Option<Listener>, p: Option<Listener>)
    ensures Alike(UpsertAliases(Placed(sh, l, p), todo, budget), UpsertAliases(sh, todo, budget), l, p)
    decreases |todo|
  {
    hide UpsertAlias;
    if todo != [] && budget > 0 && sh.internal.Some? {
      UpsertAlike(sh, todo[0], sh.internal.value, l, p);
      AliasesAlike(UpsertAlias(sh, todo[0], sh.internal.value), todo[1..], budget - 1, l, p);
    }
  }

  lemma AnswerOneAlike(sh: State, id: nat, i: nat, l: Option<Listener>, p: Option<Listener>)
    requires id in sh.certificates && i < |sh.certificates[id].challenges|
    ensures AnswerOne(Placed(sh, l, p), id, i) == Placed(AnswerOne(sh, id, i), l, p)
    ensures var sh' := AnswerOne(sh, id, i);
            id in sh'.certificates && |sh'.certificates[id].challenges| == |sh.certificates[id].challenges|
  {
  }

  lemma {:induction false} AnswersAlike(sh: State, id: nat, i: nat, budget: nat,
                                        l: Option<Listener>, p: Option<Listener>)
    requires id in sh.certificates && i <= |sh.certificates[id].challenges|
    ensures Alike(AnswerFrom(Placed(sh, l, p), id, i, budget), AnswerFrom(sh, id, i, budget), l, p)
    decreases |sh.certificates[id].challenges| - i
  {
    hide AnswerOne;
    if i < |sh.certificates[id].challenges| {
      if sh.certificates[id].challenges[i].answered {
        AnswersAlike(sh, id, i + 1, budget, l, p);
      } else if budget > 0 {
        AnswerOneAlike(sh, id, i, l, p);
        AnswersAlike(AnswerOne(sh, id, i), id, i + 1, budget - 1, l, p);
      }
    }
  }

  lemma ChallengeTasksAlike(sh: State, budget: nat, l: Option<Listener>, p: Option<Listener>)
    ensures Alike(CreateTxtRecords(Placed(sh, l, p), budget), CreateTxtRecords(sh, budget), l, p)
    ensures Alike(AnswerChallenges(Placed(sh, l, p), budget), AnswerChallenges(sh, budget), l, p)
  {
    hide UpsertTxts, AnswerFrom;
    if sh.pending.Some? && sh.pending.value in sh.certificates {
      TxtsAlike(sh, sh.certificates[sh.pending.value].challenges, budget, l, p);
      AnswersAlike(sh, sh.pending.value, 0, budget, l, p);
    }
  }

  lemma RecordTasksAlike(sh: State, budget: nat, l: Option<Listener>, p: Option<Listener>)
    ensures Alike(RemoveOldDnsRecords(Placed(sh, l, p)), RemoveOldDnsRecords(sh), l, p)
    ensures Alike(CreateAliasRecords(Placed(sh, l, p), budget), CreateAliasRecords(sh, budget), l, p)
  {
    hide DeleteOlds, UpsertAliases;
    AliasesAlike(sh, sh.domains, budget, l, p);
    if sh.current.Some? && sh.current.value in sh.certificates {
      RemovalsAlike(sh, sh.certificates[sh.current.value].challenges, l, p);
    }
  }

  lemma LoopAlike(t: Task, sh: State, budget: nat, l: Option<Listener>, p: Option<Listener>)
    requires Restarts.LoopTask(t)
    ensures Alike(Execute(t, false, Placed(sh, l, p), budget), Execute(t, false, sh, budget), l, p)
  {
    hide CreateTxtRecords, AnswerChallenges, RemoveOldDnsRecords, CreateAliasRecords, WaitForChanges;
    match t {
      case CreateTxtTask => ChallengeTasksAlike(sh, budget, l, p);
      case AnswerChallengesTask => ChallengeTasksAlike(sh, budget, l, p);
      case RemoveOldDnsTask => RecordTasksAlike(sh, budget, l, p);
      case CreateAliasTask => RecordTasksAlike(sh, budget, l, p);
      case WaitForChangesTask => WaitsAlike(sh, budget, l, p);
    }
  }

  lemma KeyAlike(sh: State, budget: nat, l: Option<Listener>, p: Option<Listener>)
    ensures Alike(GenerateKey(Placed(sh, l, p), budget), GenerateKey(sh, budget), l, p)
  {
  }

  lemma UserAlike(sh: State, budget: nat, l: Option<Listener>, p: Option<Listener>)
    ensures Alike(CreateUser(Placed(sh, l, p), budget), CreateUser(sh, budget), l, p)
  {
  }

  lemma OrderAlike(sh: State, budget: nat, l: Option<Listener>, p: Option<Listener>)
    ensures Alike(InitiateChallenges(Placed(sh, l, p), budget), InitiateChallenges(sh, budget), l, p)
  {
    hide NewChallenges;
  }

  lemma FetchAlike(sh: State, partition: Partition, budget: nat, l: Option<Listener>, p: Option<Listener>)
    ensures Alike(RetrieveCertificate(Placed(sh, l, p), budget), RetrieveCertificate(sh, budget), l, p)
    ensures Alike(UploadServerCertificate(Placed(sh, l, p), partition, budget),
                  UploadServerCertificate(sh, partition, budget), l, p)
  {
    hide AllAnswered;
  }

  lemma RowAlike(t: Task, sh: State, budget: nat, l: Option<Listener>, p: Option<Listener>)
    requires Restarts.RowTask(t)
    ensures Alike(Execute(t, false, Placed(sh, l, p), budget), Execute(t, false, sh, budget), l, p)
  {
    hide CreateUser, GenerateKey, InitiateChallenges, RetrieveCertificate, UploadServerCertificate;
    match t {
      case CreateUserTask => UserAlike(sh, budget, l, p);
      case GenerateKeyTask => KeyAlike(sh, budget, l, p);
      case InitiateChallengesTask => OrderAlike(sh, budget, l, p);
      case RetrieveCertificateTask => FetchAlike(sh, GovCloud, budget, l, p);
      case UploadTask(partition) => FetchAlike(sh, partition, budget, l, p);
    }
  }

  // ---- the shadow ----

  /** The instance has forgotten where the old certificate is; its shadow has not. */
  ghost predicate Shadowed(s: State, sh: State, ph: Phase, g: Plan) {
    && InRotation(sh, ph, g) && AtAlb(g) && !ph.detached
    && s == Placed(sh, s.listener, s.previous)
    && (if ph.stage.Issuing? then s.listener != Some(g.place.listener)
        else s.listener == sh.listener && s.previous != Some(g.place.listener))
  }

  /** The phase of the run itself: it may think that the old certificate is gone. */
  predicate PhaseOf(phr: Phase, ph: Phase) {
    phr == ph || (ph.stage.Synced? && phr == ph.(detached := true))
  }

  lemma ShadowFacts(s: State, sh: State, ph: Phase, g: Plan)
    requires Shadowed(s, sh, ph, g)
    ensures s.distribution.None? && !ph.cleaned
    ensures HasPromoted(ph) ==> Others(s) == {g.outgoing}
  {
  }

  lemma SelectionShadowed(s: State, sh: State, ph: Phase, g: Plan, listeners: seq<Listener>, budget: nat)
    requires Shadowed(s, sh, ph, g) && ph.stage.Issuing? && s.listener.Some?
    ensures var o, osh := SelectFrom(s, listeners, false, budget), SelectFrom(sh, listeners, false, budget);
            o.ok == osh.ok && o.state == Placed(osh.state, o.state.listener, o.state.previous)
            && (if o.ok then o.state.listener == osh.state.listener && o.state.previous == s.listener else o.state == s)
  {
    hide InRotation;
  }

  lemma AddAlike(sh: State, budget: nat, p: Option<Listener>)
    ensures var o := AddCertificateToAlb(Placed(sh, sh.listener, p), budget);
            Alike(o, AddCertificateToAlb(sh, budget), sh.listener, p)
  {
  }

  /** The old certificate is on no other listener. */
  lemma OnlyAtItsPlace(sh: State, ph: Phase, g: Plan, l: Listener)
    requires InRotation(sh, ph, g) && AtAlb(g) && HasPromoted(ph) && l in sh.attached && l != g.place.listener
    ensures Own(GovCloud, g.outgoing) !in sh.attached[l]
  {
    var arn, place := Own(GovCloud, g.outgoing), PlaceNow(sh).value;
    var theirs := if ph.detached then {} else Spot(g.place, arn);
    var spots := theirs + Spot(place, Own(PartitionAt(place), sh.current.value));
    assert (l, arn) !in spots;
    assert Attachments(sh, spots);
  }

  /** What is taken off the listener the instance remembers was not there. */
  lemma RemovalMisses(s: State, sh: State, ph: Phase, g: Plan, budget: nat)
    requires Shadowed(s, sh, ph, g) && ph.stage.Synced?
    ensures var o := RemoveCertificateFromPreviousAlb(s, budget);
            o.state == if o.ok then Placed(s, s.listener, None) else s
  {
    var o := RemoveCertificateFromPreviousAlb(s, budget);
    if o.ok {
      OnlyOther(Others(s), g.outgoing);
      var arn := Own(GovCloud, g.outgoing);
      var p := s.previous.value;
      OnlyAtItsPlace(sh, ph, g, p);
      assert s.attached[p] - {arn} == s.attached[p];
      assert s.attached[p := s.attached[p]] == s.attached;
    }
  }

  /** The old certificate is still in use, so its deletion fails at once. */
  lemma DeletionFailsAtOnce(s: State, sh: State, ph: Phase, g: Plan, partition: Partition, budget: nat)
    requires Shadowed(s, sh, ph, g) && HasPromoted(ph) && partition.GovCloud?
    ensures DeletePreviousCertificates(s, partition, budget) == Failed(s)
  {
    ShadowFacts(s, sh, ph, g);
    OnlyOther(Others(s), g.outgoing);
    var arn := Own(GovCloud, g.outgoing);
    var place := PlaceNow(sh).value;
    assert (g.place.listener, arn) in Spot(g.place, arn) + Spot(place, Own(PartitionAt(place), sh.current.value));
    assert InUse(s, arn) && arn in s.iam;
  }

  /** Tasks other than those that place and remove certificates. */
  lemma PlainShadowed(t: Task, s: State, sh: State, ph: Phase, phr: Phase, g: Plan, budget: nat) returns (sh': State)
    requires Shadowed(s, sh, ph, g) && PhaseOf(phr, ph) && Allowed(phr, t, g, false)
    requires Restarts.RowTask(t) || Restarts.LoopTask(t)
    ensures var o := Execute(t, false, s, budget);
            Shadowed(o.state, sh', if o.ok then Next(ph, t) else ph, g)
            && PhaseOf(if o.ok then Next(phr, t) else phr, if o.ok then Next(ph, t) else ph)
  {
    hide InRotation, Execute;
    AllowedAlike(t, ph, phr, g);
    sh' := Execute(t, false, sh, budget).state;
    ExecuteKeeps(t, sh, ph, g, false, budget);
    if Restarts.RowTask(t) {
      RowAlike(t, sh, budget, s.listener, s.previous);
      RowLeavesListener(t, sh, budget);
    } else {
      LoopAlike(t, sh, budget, s.listener, s.previous);
      LoopLeavesListener(t, sh, budget);
    }
    StillIssuing(t, ph, g);
  }

  lemma AllowedAlike(t: Task, ph: Phase, phr: Phase, g: Plan)
    requires PhaseOf(phr, ph) && Allowed(phr, t, g, false) && (Restarts.RowTask(t) || Restarts.LoopTask(t))
    ensures Allowed(ph, t, g, false)
  {
  }

  lemma StillIssuing(t: Task, ph: Phase, g: Plan)
    requires Allowed(ph, t, g, false) && (Restarts.RowTask(t) || Restarts.LoopTask(t))
    ensures Next(ph, t).stage.Issuing? == ph.stage.Issuing?
    ensures Next(ph, t).detached == ph.detached
  {
  }

  lemma RowLeavesListener(t: Task, sh: State, budget: nat)
    requires Restarts.RowTask(t)
    ensures Execute(t, false, sh, budget).state.listener == sh.listener
  {
    hide Execute;
    RowAlike(t, sh, budget, sh.listener, sh.previous);
    assert Placed(sh, sh.listener, sh.previous) == sh;
  }

  lemma LoopLeavesListener(t: Task, sh: State, budget: nat)
    requires Restarts.LoopTask(t)
    ensures Execute(t, false, sh, budget).state.listener == sh.listener
  {
    hide Execute;
    LoopAlike(t, sh, budget, sh.listener, sh.previous);
    assert Placed(sh, sh.listener, sh.previous) == sh;
  }

  // ---- runs ----

  ghost predicate ShadowRun(r: Run, sh: State, ph: Phase, phr: Phase, g: Plan) {
    && Shadowed(r.state, sh, ph, g) && PhaseOf(phr, ph)
    && (ph.stage.Issuing? ==> r.state.listener.Some?)
    && AlbRotation(r.kind) && Safe(phr, r.todo, g, false)
  }

  /** The tasks that choose, promote, take off and delete. */
  lemma PlaceShadowed(t: Task, s: State, sh: State, ph: Phase, phr: Phase, g: Plan, budget: nat)
    returns (sh': State, ph': Phase)
    requires Shadowed(s, sh, ph, g) && PhaseOf(phr, ph) && Allowed(phr, t, g, false)
    requires PlaceTask(t) && (ph.stage.Issuing? ==> s.listener.Some?)
    ensures var o := Execute(t, false, s, budget);
            Shadowed(o.state, sh', ph', g) && PhaseOf(if o.ok then Next(phr, t) else phr, ph')
            && (ph'.stage.Issuing? ==> o.state.listener.Some?)
  {
    hide InRotation, SelectFrom, AddCertificateToAlb, RemoveCertificateFromPreviousAlb, DeletePreviousCertificates;
    sh', ph' := sh, ph;
    match t {
      case SelectAlbTask =>
        SelectionShadowed(s, sh, ph, g, s.shared, budget);
        ExecuteKeeps(t, sh, ph, g, false, budget);
        sh' := SelectFrom(sh, s.shared, false, budget).state;
        if SelectFrom(s, s.shared, false, budget).ok { ph' := Next(ph, t); }
      case SelectDedicatedAlbTask =>
        SelectionShadowed(s, sh, ph, g, s.dedicated, budget);
        ExecuteKeeps(t, sh, ph, g, false, budget);
        sh' := SelectFrom(sh, s.dedicated, false, budget).state;
        if SelectFrom(s, s.dedicated, false, budget).ok { ph' := Next(ph, t); }
      case AddCertificateToAlbTask =>
        AddAlike(sh, budget, s.previous);
        AddAlike(sh, budget, sh.previous);
        assert Placed(sh, sh.listener, sh.previous) == sh;
        ExecuteKeeps(t, sh, ph, g, false, budget);
        sh' := AddCertificateToAlb(sh, budget).state;
        if AddCertificateToAlb(s, budget).ok { ph' := Next(ph, t); }
      case RemoveFromPreviousAlbTask => RemovalMisses(s, sh, ph, g, budget);
      case DeletePreviousTask(p) => DeletionFailsAtOnce(s, sh, ph, g, p, budget);
    }
  }

  lemma OtherShadowed(t: Task, s: State, sh: State, ph: Phase, phr: Phase, g: Plan, budget: nat)
    requires Shadowed(s, sh, ph, g) && PhaseOf(phr, ph) && Allowed(phr, t, g, false)
    requires !PlaceTask(t) && !Restarts.RowTask(t) && !Restarts.LoopTask(t)
    ensures var o := Execute(t, false, s, budget);
            o.state == s && PhaseOf(if o.ok then Next(phr, t) else phr, ph)
  {
    ShadowFacts(s, sh, ph, g);
    hide InRotation;
  }

  lemma FirstIsSafe(ph: Phase, todo: Pipeline, g: Plan)
    requires Safe(ph, todo, g, false) && todo.Then?
    ensures Allowed(ph, todo.task, g, false) && Safe(Next(ph, todo.task), todo.rest, g, false)
  {
  }

  lemma TryShadowed(r: Run, sh: State, ph: Phase, phr: Phase, g: Plan, budget: nat)
    returns (sh': State, ph': Phase, phr': Phase)
    requires ShadowRun(r, sh, ph, phr, g) && r.todo.Then?
    ensures ShadowRun(Step(r, Try(budget)), sh', ph', phr', g)
  {
    var t, s := r.todo.task, r.state;
    var o := Execute(t, false, s, budget);
    hide Execute, InRotation, Shadowed, Safe;
    FirstIsSafe(phr, r.todo, g);
    sh', ph' := sh, ph;
    phr' := if o.ok then Next(phr, t) else phr;
    if PlaceTask(t) {
      sh', ph' := PlaceShadowed(t, s, sh, ph, phr, g, budget);
    } else if Restarts.RowTask(t) || Restarts.LoopTask(t) {
      sh' := PlainShadowed(t, s, sh, ph, phr, g, budget);
      if o.ok { ph' := Next(ph, t); }
      KeepsListener(t, s, ph, phr, g, budget);
    } else {
      OtherShadowed(t, s, sh, ph, phr, g, budget);
    }
  }

  lemma KeepsListener(t: Task, s: State, ph: Phase, phr: Phase, g: Plan, budget: nat)
    requires PhaseOf(phr, ph) && Allowed(phr, t, g, false) && (Restarts.RowTask(t) || Restarts.LoopTask(t))
    ensures Execute(t, false, s, budget).state.listener == s.listener
    ensures Next(ph, t).stage.Issuing? == ph.stage.Issuing?
  {
    hide Execute;
    AllowedAlike(t, ph, phr, g);
    StillIssuing(t, ph, g);
    if Restarts.RowTask(t) { RowLeavesListener(t, s, budget); } else { LoopLeavesListener(t, s, budget); }
  }

  lemma RejectShadowed(s: State, sh: State, ph: Phase, g: Plan)
    requires Shadowed(s, sh, ph, g) && ph.stage.Issuing?
    ensures Shadowed(RejectOrder(s), RejectOrder(sh), ph, g) && RejectOrder(s).listener == s.listener
  {
    hide InRotation;
    RejectKeeps(sh, ph, g);
  }

  lemma ChurnShadowed(s: State, sh: State, ph: Phase, g: Plan, e: Event)
    requires Shadowed(s, sh, ph, g) && e.Churn?
    ensures var s' := ChurnListener(s, e.listener, e.foreign, e.open);
            Shadowed(s', ChurnListener(sh, e.listener, e.foreign, e.open), ph, g) && s'.listener == s.listener
  {
    hide InRotation;
    ChurnKeeps(sh, ph, g, e.listener, e.foreign, e.open);
  }

  lemma StepShadowed(r: Run, sh: State, ph: Phase, phr: Phase, g: Plan, e: Event)
    returns (sh': State, ph': Phase, phr': Phase)
    requires ShadowRun(r, sh, ph, phr, g) && !e.Restart?
    ensures ShadowRun(Step(r, e), sh', ph', phr', g)
  {
    sh', ph', phr' := sh, ph, phr;
    match e {
      case Try(budget) =>
        if r.todo.Then? {
          hide ShadowRun, Step;
          sh', ph', phr' := TryShadowed(r, sh, ph, phr, g, budget);
        }
      case Reject =>
        hide RejectOrder, Shadowed;
        if r.todo.Then? && r.todo.task.RetrieveCertificateTask? {
          RejectShadowed(r.state, sh, ph, g);
          sh' := RejectOrder(sh);
        }
      case Churn(_, _, _) =>
        hide ChurnListener, Shadowed;
        ChurnShadowed(r.state, sh, ph, g, e);
        sh' := ChurnListener(sh, e.listener, e.foreign, e.open);
    }
  }

  lemma {:induction false} RunShadowed(r: Run, sh: State, ph: Phase, phr: Phase, g: Plan, events: seq<Event>)
    returns (sh': State, ph': Phase, phr': Phase)
    requires ShadowRun(r, sh, ph, phr, g) && forall e :: e in events ==> !e.Restart?
    ensures ShadowRun(Steps(r, events), sh', ph', phr', g)
    decreases |events|
  {
    hide ShadowRun, Step;
    sh', ph', phr' := sh, ph, phr;
    if events != [] {
      var sh1, ph1, phr1 := StepShadowed(r, sh, ph, phr, g, events[0]);
      sh', ph', phr' := RunShadowed(Step(r, events[0]), sh1, ph1, phr1, g, events[1..]);
    }
  }

  // ---- main result ----

  lemma {:induction false} ServedAlike(s: State, sh: State, domains: set<string>)
    requires NoOutage(sh, domains) && s == Placed(sh, s.listener, s.previous)
    ensures NoOutage(s, domains)
  {
    forall d, t | d in domains && t in Visible(s.alias[d], s.insync) ensures Reaches(s, t, d) {
      assert Reaches(sh, t, d);
      match t
      case LoadBalancer(arn) =>
        var l: Listener, c: nat :| l.albArn == arn && ListenerServes(sh, l, c, d);
        assert ListenerServes(s, l, c, d);
      case Distribution(id) =>
        var c :| DistributionServes(sh, id, c, d);
        assert DistributionServes(s, id, c, d);
    }
  }

  lemma ShadowServes(r: Run, sh: State, ph: Phase, phr: Phase, g: Plan)
    requires ShadowRun(r, sh, ph, phr, g)
    ensures NoOutage(r.state, g.kept)
  {
    hide InRotation, NoOutage;
    Serving(sh, ph, g);
    ServedAlike(r.state, sh, g.kept);
  }

  /** The shadow of a run that is restarted after it has selected another listener. */
  lemma ShadowStarts(s: State, g: Plan)
    requires InRotation(s, Phase(Selected, false, false), g) && AtAlb(g) && s.listener != Some(g.place.listener)
    ensures Shadowed(s, Placed(s, Some(g.place.listener), None), START, g) && s.listener.Some?
  {
    var sh := Placed(s, Some(g.place.listener), None);
    assert Before(sh, Issuing, g);
  }

  lemma StartsAgainShadowed(r: Run, g: Plan, events: seq<Event>)
    requires InRotation(r.state, Phase(Selected, false, false), g) && AtAlb(g) && AlbRotation(r.kind)
    requires r.todo.Then? && r.state.listener != Some(g.place.listener)
    requires forall e :: e in events ==> !e.Restart?
    ensures NoOutage(Steps(Step(r, Restart), events).state, g.kept)
  {
    hide InRotation, Shadowed, TasksOf, Steps, NoOutage, Safe;
    ShadowStarts(r.state, g);
    KindIsSafe(r.kind, g);
    var r1 := Step(r, Restart);
    assert r1 == Begin(r.state, r.kind);
    var sh, ph, phr := RunShadowed(r1, Placed(r.state, Some(g.place.listener), None), START, START, g, events);
    ShadowServes(Steps(r1, events), sh, ph, phr, g);
  }

  lemma KindIsSafe(kind: Kind, g: Plan)
    requires AlbRotation(kind) && AtAlb(g)
    ensures Safe(START, TasksOf(kind), g, false)
  {
    AlbPipelinesAreSafe(g, false);
    hide Safe;
    match kind {
      case AlbUpdate =>
      case AlbRenewal =>
      case DedicatedUpdate =>
      case DedicatedRenewal =>
    }
  }

  lemma AboutToServe(r: Run, ph: Phase, g: Plan, all: bool, after: seq<Event>)
    requires Running(r, ph, g, all) && AtAlb(g) && AlbRotation(r.kind)
    requires r.todo.Then? && r.todo.task.AddCertificateToAlbTask? && r.state.listener != Some(g.place.listener)
    requires forall e :: e in after ==> !e.Restart?
    ensures NoOutage(Steps(Step(r, Restart), after).state, g.kept)
  {
    hide InRotation, Step, Steps, Safe, TasksOf, NoOutage;
    SelectedPhase(r, ph, g, all);
    StartsAgainShadowed(r, g, after);
  }

  /**
    Nothing goes down. Restart a rotation behind a load balancer between its selection
    and its promotion, where the selection has changed the listener, so that it does not
    finish (see RestartAfterSelection): whatever happens next, short of another restart,
    every domain that the old certificate served and the instance keeps is served.
   */
  lemma StrandedDomainsAreServed(s: State, kind: Kind, domains: seq<string>, before: seq<Event>, after: seq<Event>)
    requires Startable(s, kind, domains) && AlbRotation(kind)
    requires AdmissibleRun(Begin(Request(s, kind, domains), kind), PlanOf(s, kind, domains), before)
    requires forall e :: e in after ==> !e.Restart?
    requires var r := Steps(Begin(Request(s, kind, domains), kind), before);
             && r.todo.Then? && r.todo.task.AddCertificateToAlbTask?
             && PlanOf(s, kind, domains).place.AtListener?
             && r.state.listener != Some(PlanOf(s, kind, domains).place.listener)
    ensures var r := Steps(Begin(Request(s, kind, domains), kind), before);
            NoOutage(Steps(Step(r, Restart), after).state, PlanOf(s, kind, domains).kept)
  {
    var g := PlanOf(s, kind, domains);
    var r0 := Begin(Request(s, kind, domains), kind);
    hide Running, Step, Steps, AdmissibleRun, Startable, Request, PlanOf, TasksOf, NoOutage;
    StartRun(s, kind, domains);
    PlanIsAtAlb(s, kind, domains);
    var ph := RunKeeps(r0, START, g, Renewal(kind), before);
    var r := Steps(r0, before);
    KindStays(r0, before);
    AboutToServe(r, ph, g, Renewal(kind), after);
  }
}
