/**
  What becomes of the DNS records of domains that an update drops: the removal deletes
  exactly those that answered the challenges of the current certificate or point at the
  instance, and a finished update has done so, but for the one chain without a removal.
 */
module DroppedDomains {
  import opened Wrappers
  import opened Records
  import opened Tasks
  import opened Pipelines
  import opened Frames
  import opened Rotation
  import opened PhaseOrder
  import opened RotationRuns
  import opened PlanQueues
  import O = Operations
  import opened Provisioning
  import Moves
  import Lifecycle
  import RotationProgress

  // ---- one removal ----

  /** The domain of a challenge, and not one of these. */
  predicate Dropped(challenges: seq<Challenge>, domains: seq<string>, d: string) {
    d !in domains && exists c :: c in challenges && c.domain == d
  }

  /** What a challenge of a dropped domain asked to be written. */
  predicate Asked(challenges: seq<Challenge>, domains: seq<string>, d: string, contents: Token) {
    d !in domains && exists c :: c in challenges && c.domain == d && c.contents == contents
  }

  /** The ALIAS records after the removal: without those of dropped domains that pointed at
      the target, and the others as they were. */
  ghost predicate AliasesCleared(
    before: map<string, Alias>, after: map<string, Alias>,
    challenges: seq<Challenge>, domains: seq<string>, target: Option<Target>)
  {
    forall d ::
      && (d in after
          <==> d in before && !(Dropped(challenges, domains, d) && Some(before[d].target) == target))
      && (d in after ==> after[d] == before[d])
  }

  /** The same for TXT records, which go when they are what a challenge asked for. */
  ghost predicate TxtsCleared(
    before: map<string, Txt>, after: map<string, Txt>, challenges: seq<Challenge>, domains: seq<string>)
  {
    forall d ::
      && (d in after <==> d in before && !Asked(challenges, domains, d, before[d].contents))
      && (d in after ==> after[d] == before[d])
  }

  lemma HeadOrTail(todo: seq<Challenge>, domains: seq<string>)
    requires todo != []
    ensures forall d :: Dropped(todo, domains, d)
                        <==> (d == todo[0].domain && d !in domains) || Dropped(todo[1..], domains, d)
    ensures forall d, t :: Asked(todo, domains, d, t)
                           <==> (d == todo[0].domain && t == todo[0].contents && d !in domains)
                                || Asked(todo[1..], domains, d, t)
  {
    assert todo == [todo[0]] + todo[1..];
    assert forall c :: c in todo <==> c == todo[0] || c in todo[1..];
  }

  lemma {:induction false} RemovalClears(s: State, todo: seq<Challenge>)
    ensures var s' := DeleteOlds(s, todo);
            && AliasesCleared(s.alias, s'.alias, todo, s.domains, s.internal)
            && TxtsCleared(s.txt, s'.txt, todo, s.domains)
    decreases |todo|
  {
    if todo != [] {
      HeadOrTail(todo, s.domains);
      hide Dropped, Asked;
      RemovalClears(if todo[0].domain in s.domains then s else DeleteOldRecords(s, todo[0]), todo[1..]);
    }
  }

  /** The removal deletes, of the domains that the instance no longer has and that the
      current certificate has challenges for, the ALIAS records that point at the instance
      and the TXT records written for those challenges. Nothing else changes. */
  lemma RemovalIsExact(s: State)
    ensures RemoveOldDnsRecords(s).ok <==> s.current.Some? && s.current.value in s.certificates
    ensures RemoveOldDnsRecords(s).ok ==>
              var s' := RemoveOldDnsRecords(s).state;
              var challenges := s.certificates[s.current.value].challenges;
              && AliasesCleared(s.alias, s'.alias, challenges, s.domains, s.internal)
              && TxtsCleared(s.txt, s'.txt, challenges, s.domains)
              && s' == s.(alias := s'.alias, txt := s'.txt)
    ensures !RemoveOldDnsRecords(s).ok ==> RemoveOldDnsRecords(s).state == s
  {
    hide AliasesCleared, TxtsCleared;
    if s.current.Some? && s.current.value in s.certificates {
      RemovalClears(s, s.certificates[s.current.value].challenges);
      RemovalFrame(s, s.certificates[s.current.value].challenges);
    }
  }

  // ---- what the other tasks leave alone ----

  /** What a removal goes by stays as it was before the promotion. */
  predicate SameSubject(s: State, s': State, c: nat) {
    && s'.domains == s.domains && s'.current == s.current && s'.internal == s.internal
    && c in s.certificates && c in s'.certificates
    && s'.certificates[c].challenges == s.certificates[c].challenges
  }

  /** The ALIAS records of domains that the instance does not have. */
  ghost predicate SameElsewhere(before: map<string, Alias>, after: map<string, Alias>, domains: seq<string>) {
    forall d :: d !in domains ==> (d in after <==> d in before) && (d in after ==> after[d] == before[d])
  }

  /** Those after a removal. */
  ghost predicate ClearedElsewhere(
    before: map<string, Alias>, after: map<string, Alias>,
    challenges: seq<Challenge>, domains: seq<string>, target: Option<Target>)
  {
    forall d :: d !in domains ==>
                  && (d in after
                      <==> d in before && !(Dropped(challenges, domains, d) && Some(before[d].target) == target))
                  && (d in after ==> after[d] == before[d])
  }

  lemma {:induction false} AliasesElsewhere(s: State, todo: seq<string>, budget: nat)
    requires forall d :: d in todo ==> d in s.domains
    ensures SameElsewhere(s.alias, UpsertAliases(s, todo, budget).state.alias, s.domains)
    decreases |todo|
  {
    if todo != [] && budget > 0 && s.internal.Some? {
      assert todo[0] in s.domains;
      AliasesElsewhere(UpsertAlias(s, todo[0], s.internal.value), todo[1..], budget - 1);
    }
  }

  lemma LoopKeepsElsewhere(t: Task, provisioning: bool, s: State, budget: nat)
    requires Loops(t) && !t.RemoveOldDnsTask?
    ensures SameElsewhere(s.alias, Execute(t, provisioning, s, budget).state.alias, s.domains)
  {
    hide UpsertTxts, WaitForChanges, UpsertAliases, AnswerFrom, DeleteFromIam, Others, Ascending;
    match t {
      case CreateTxtTask =>
        if s.pending.Some? && s.pending.value in s.certificates {
          TxtFrame(s, s.certificates[s.pending.value].challenges, budget);
        }
      case WaitForChangesTask => WaitFrame(s, budget);
      case CreateAliasTask => AliasesElsewhere(s, s.domains, budget);
      case AnswerChallengesTask =>
        if s.pending.Some? && s.pending.value in s.certificates { AnswerFrame(s, s.pending.value, 0, budget); }
      case DeletePreviousTask(p) => DeletionFrame(s, p, Ascending(Others(s)), budget);
    }
  }

  lemma TaskKeepsElsewhere(t: Task, provisioning: bool, s: State, budget: nat)
    requires !t.RemoveOldDnsTask?
    ensures SameElsewhere(s.alias, Execute(t, provisioning, s, budget).state.alias, s.domains)
  {
    hide Execute;
    if Loops(t) {
      LoopKeepsElsewhere(t, provisioning, s, budget);
    } else {
      OtherFrame(t, provisioning, s, budget);
    }
  }

  lemma {:induction false} AnswersKeepOthers(s: State, id: nat, i: nat, budget: nat, c: nat)
    requires id in s.certificates && i <= |s.certificates[id].challenges| && c != id && c in s.certificates
    ensures var s' := AnswerFrom(s, id, i, budget).state;
            c in s'.certificates && s'.certificates[c] == s.certificates[c]
    decreases |s.certificates[id].challenges| - i
  {
    if i < |s.certificates[id].challenges| {
      if s.certificates[id].challenges[i].answered {
        AnswersKeepOthers(s, id, i + 1, budget, c);
      } else if budget > 0 {
        AnswersKeepOthers(AnswerOne(s, id, i), id, i + 1, budget - 1, c);
      }
    }
  }

  lemma LoopKeepsCertificate(t: Task, provisioning: bool, s: State, budget: nat, c: nat)
    requires Loops(t) && !t.DeletePreviousTask? && c in s.certificates && s.pending != Some(c)
    ensures var s' := Execute(t, provisioning, s, budget).state;
            c in s'.certificates && s'.certificates[c] == s.certificates[c]
  {
    hide UpsertTxts, WaitForChanges, UpsertAliases, AnswerFrom, DeleteOlds;
    match t {
      case CreateTxtTask =>
        if s.pending.Some? && s.pending.value in s.certificates {
          TxtFrame(s, s.certificates[s.pending.value].challenges, budget);
        }
      case WaitForChangesTask => WaitFrame(s, budget);
      case RemoveOldDnsTask =>
        if s.current.Some? && s.current.value in s.certificates {
          RemovalFrame(s, s.certificates[s.current.value].challenges);
        }
      case CreateAliasTask => AliasFrame(s, s.domains, budget);
      case AnswerChallengesTask =>
        if s.pending.Some? && s.pending.value in s.certificates {
          AnswersKeepOthers(s, s.pending.value, 0, budget, c);
        }
    }
  }

  lemma OtherKeepsColumns(t: Task, provisioning: bool, s: State, budget: nat)
    requires !Loops(t) && !Promotes(t)
    ensures var s' := Execute(t, provisioning, s, budget).state;
            s'.domains == s.domains && s'.current == s.current && s'.internal == s.internal
  {
    hide Execute;
    if FillsIn(t) {
      FillingFrame(t, provisioning, s, budget);
    } else if t.SelectAlbTask? || t.SelectDedicatedAlbTask? {
      SelectionFrame(t, provisioning, s, budget);
    } else {
      RetiringFrame(t, provisioning, s, budget);
    }
  }

  /** The row that a task fills in is the pending one, or a new one. */
  lemma FillingKeepsOthers(t: Task, provisioning: bool, s: State, budget: nat, c: nat)
    requires FillsIn(t) && c in s.certificates && s.pending != Some(c) && c < s.nextId
    ensures var s' := Execute(t, provisioning, s, budget).state;
            c in s'.certificates && s'.certificates[c] == s.certificates[c]
  {
    hide NewChallenges;
  }

  lemma OtherKeepsCertificates(t: Task, provisioning: bool, s: State, budget: nat)
    requires !Loops(t) && !Promotes(t) && !FillsIn(t)
    ensures Execute(t, provisioning, s, budget).state.certificates == s.certificates
  {
    hide Execute;
    if t.SelectAlbTask? || t.SelectDedicatedAlbTask? {
      SelectionFrame(t, provisioning, s, budget);
    } else {
      RetiringFrame(t, provisioning, s, budget);
    }
  }

  lemma TaskKeepsSubject(t: Task, provisioning: bool, s: State, budget: nat, c: nat)
    requires !t.DeletePreviousTask? && c in s.certificates && s.pending != Some(c) && c < s.nextId
    requires Promotes(t) ==> !Execute(t, provisioning, s, budget).ok
    ensures SameSubject(s, Execute(t, provisioning, s, budget).state, c)
  {
    hide Execute;
    if Loops(t) {
      LoopFrame(t, provisioning, s, budget);
      LoopKeepsCertificate(t, provisioning, s, budget, c);
    } else if Promotes(t) {
      PromotionFrame(t, provisioning, s, budget);
    } else {
      OtherKeepsColumns(t, provisioning, s, budget);
      if FillsIn(t) {
        FillingKeepsOthers(t, provisioning, s, budget, c);
      } else {
        OtherKeepsCertificates(t, provisioning, s, budget);
      }
    }
  }

  // ---- one update ----

  /** Relative to the row as the request left it: whether the removal was done, what it
      goes by, and the ALIAS records of the domains that the instance does not have. */
  ghost predicate OnTrack(s0: State, r: Run, ph: Phase, g: Plan, removed: bool) {
    && Applying(s0, g) && r.state.domains == s0.domains
    && (!HasPromoted(ph) ==> SameSubject(s0, r.state, g.outgoing))
    && (if removed
        then Cleared(s0, r.state.alias)
        else && SameElsewhere(s0.alias, r.state.alias, s0.domains)
             && (Only(r.todo, Dropping) == If(Removes(r.kind), [RemoveOldDnsTask])))
    && (removed ==> Removes(r.kind))
    && Updates(r.kind)
  }

  predicate Applying(s0: State, g: Plan) {
    s0.current == Some(g.outgoing) && g.outgoing in s0.certificates && !g.reuse
  }

  /** The removal of the domains that the request dropped, seen from those alone. */
  ghost predicate Cleared(s0: State, alias: map<string, Alias>)
    requires s0.current.Some? && s0.current.value in s0.certificates
  {
    ClearedElsewhere(s0.alias, alias, s0.certificates[s0.current.value].challenges, s0.domains, s0.internal)
  }

  /** The updates that can apply domains; all but one remove old records. */
  predicate Updates(kind: Kind) {
    kind.AlbUpdate? || kind.DedicatedUpdate? || kind.CdnUpdate? || kind.CdnWafUpdate? || kind.CdnToCdnWaf?
  }

  predicate Removes(kind: Kind) {
    Updates(kind) && !kind.CdnToCdnWaf?
  }

  lemma WhoRemoves(kind: Kind)
    requires Updates(kind)
    ensures Only(TasksOf(kind), Dropping) == If(Removes(kind), [RemoveOldDnsTask])
  {
    hide Only, TasksOf;
    match kind {
      case AlbUpdate => UpdateTasks(O.Alb, Dropping);
      case DedicatedUpdate => UpdateTasks(O.DedicatedAlb, Dropping);
      case CdnUpdate => UpdateTasks(O.Cdn, Dropping);
      case CdnWafUpdate => UpdateTasks(O.CdnWaf, Dropping);
      case CdnToCdnWaf => MoveTasks(O.Cdn, O.CdnWaf, Dropping);
    }
  }

  /** What the rotation invariant gives of a run before the promotion. */
  lemma BeforePromotion(s: State, ph: Phase, g: Plan)
    requires InRotation(s, ph, g) && !HasPromoted(ph) && !g.reuse
    ensures s.current == Some(g.outgoing) && g.outgoing in s.certificates
    ensures s.pending != Some(g.outgoing) && g.outgoing < s.nextId
  {
  }

  lemma TaskPhase(ph: Phase, t: Task, g: Plan, all: bool)
    requires Allowed(ph, t, g, all) && !HasPromoted(ph)
    ensures !t.DeletePreviousTask? && (HasPromoted(Next(ph, t)) <==> Promotes(t))
  {
  }

  /** Clearing once more changes nothing. */
  lemma ClearedBy(s0: State, s: State, s': State, g: Plan)
    requires Applying(s0, g) && SameSubject(s0, s, g.outgoing)
    requires Cleared(s0, s.alias) || SameElsewhere(s0.alias, s.alias, s0.domains)
    requires AliasesCleared(s.alias, s'.alias, s.certificates[g.outgoing].challenges, s.domains, s.internal)
    ensures Cleared(s0, s'.alias)
  {
    hide Dropped;
  }

  lemma StillCleared(s0: State, alias: map<string, Alias>, alias': map<string, Alias>)
    requires s0.current.Some? && s0.current.value in s0.certificates
    requires SameElsewhere(alias, alias', s0.domains)
    ensures Cleared(s0, alias) ==> Cleared(s0, alias')
    ensures SameElsewhere(s0.alias, alias, s0.domains) ==> SameElsewhere(s0.alias, alias', s0.domains)
  {
    hide Dropped;
  }

  lemma SubjectStays(s0: State, s: State, t: Task, ph: Phase, g: Plan, budget: nat)
    requires InRotation(s, ph, g) && Allowed(ph, t, g, false) && !g.reuse && !HasPromoted(ph)
    requires SameSubject(s0, s, g.outgoing)
    ensures var o := Execute(t, false, s, budget);
            !(o.ok && HasPromoted(Next(ph, t))) ==> SameSubject(s0, o.state, g.outgoing)
  {
    hide Execute;
    BeforePromotion(s, ph, g);
    TaskPhase(ph, t, g, false);
    if !(Promotes(t) && Execute(t, false, s, budget).ok) { TaskKeepsSubject(t, false, s, budget, g.outgoing); }
  }

  /** A removal that succeeds clears the records; no other task touches them. */
  lemma AliasesStay(s0: State, s: State, t: Task, g: Plan, budget: nat)
    requires Applying(s0, g) && (t.RemoveOldDnsTask? ==> SameSubject(s0, s, g.outgoing))
    requires s.domains == s0.domains
    ensures var o := Execute(t, false, s, budget);
            && (Cleared(s0, s.alias) ==> Cleared(s0, o.state.alias))
            && (SameElsewhere(s0.alias, s.alias, s0.domains) ==>
                  if t.RemoveOldDnsTask? && o.ok then Cleared(s0, o.state.alias)
                  else SameElsewhere(s0.alias, o.state.alias, s0.domains))
  {
    hide Execute, AliasesCleared, Cleared, SameElsewhere, TxtsCleared;
    var o := Execute(t, false, s, budget);
    if t.RemoveOldDnsTask? {
      RemovalTask(s, false, budget);
      RemovalIsExact(s);
      if o.ok && (Cleared(s0, s.alias) || SameElsewhere(s0.alias, s.alias, s0.domains)) {
        ClearedBy(s0, s, o.state, g);
      }
    } else {
      TaskKeepsElsewhere(t, false, s, budget);
      StillCleared(s0, s.alias, o.state.alias);
    }
  }

  lemma TryStaysOnTrack(s0: State, r: Run, ph: Phase, g: Plan, removed: bool, budget: nat)
    returns (ph': Phase, removed': bool)
    requires OnTrack(s0, r, ph, g, removed) && Running(r, ph, g, false) && r.todo.Then?
    ensures Running(Step(r, Try(budget)), ph', g, false) && OnTrack(s0, Step(r, Try(budget)), ph', g, removed')
  {
    hide Running, Execute, OnTrack;
    var o := Execute(r.todo.task, Provisions(r.kind), r.state, budget);
    removed' := removed || (r.todo.task.RemoveOldDnsTask? && o.ok);
    TryFacts(r, ph, g);
    ph' := TryKeeps(r, ph, g, false, budget);
    TaskStaysOnTrack(s0, r, ph, g, removed, budget, ph', removed');
  }

  lemma TaskStaysOnTrack(
    s0: State, r: Run, ph: Phase, g: Plan, removed: bool, budget: nat, ph': Phase, removed': bool)
    requires OnTrack(s0, r, ph, g, removed) && r.todo.Then? && !Provisions(r.kind)
    requires InRotation(r.state, ph, g) && Allowed(ph, r.todo.task, g, false)
    requires r.todo.task.RemoveOldDnsTask? ==> !HasPromoted(ph)
    requires var o := Execute(r.todo.task, false, r.state, budget);
             && ph' == (if o.ok then Next(ph, r.todo.task) else ph)
             && removed' == (removed || (r.todo.task.RemoveOldDnsTask? && o.ok))
    ensures OnTrack(s0, Step(r, Try(budget)), ph', g, removed')
  {
    var t := r.todo.task;
    TryKeepsDomains(r, budget);
    hide Execute, InRotation, Cleared, SameElsewhere, Only, Allowed;
    if HasPromoted(ph) { StaysPromoted(ph, t, g); } else { SubjectStays(s0, r.state, t, ph, g, budget); }
    AliasesStay(s0, r.state, t, g, budget);
    if t.RemoveOldDnsTask? { Take(t, r.todo.rest, Dropping); } else { Pass(t, r.todo.rest, Dropping); }
  }

  lemma StaysPromoted(ph: Phase, t: Task, g: Plan)
    requires HasPromoted(ph) && Allowed(ph, t, g, false)
    ensures HasPromoted(Next(ph, t))
  {
  }

  lemma TryFacts(r: Run, ph: Phase, g: Plan)
    requires Running(r, ph, g, false) && r.todo.Then?
    ensures InRotation(r.state, ph, g) && Allowed(ph, r.todo.task, g, false) && !Provisions(r.kind)
    ensures r.todo.task.RemoveOldDnsTask? ==> !HasPromoted(ph)
  {
  }

  lemma RemovalTask(s: State, provisioning: bool, budget: nat)
    ensures Execute(RemoveOldDnsTask, provisioning, s, budget) == RemoveOldDnsRecords(s)
  {
  }

  lemma TryKeepsDomains(r: Run, budget: nat)
    ensures Step(r, Try(budget)).state.domains == r.state.domains
  {
    Moves.StepKeepsDomains(r, Try(budget));
  }

  /** An event that leaves the subject, the records and the chain as they are. */
  lemma NothingMoves(s0: State, r: Run, s': State, ph: Phase, g: Plan, removed: bool)
    requires OnTrack(s0, r, ph, g, removed) && s'.alias == r.state.alias && s'.domains == s0.domains
    requires !HasPromoted(ph) && SameSubject(s0, r.state, g.outgoing) ==> SameSubject(s0, s', g.outgoing)
    ensures OnTrack(s0, r.(state := s'), ph, g, removed)
  {
    hide Cleared, SameElsewhere, Only;
  }

  lemma RejectStaysOnTrack(s0: State, r: Run, ph: Phase, g: Plan, removed: bool)
    requires OnTrack(s0, r, ph, g, removed) && Running(r, ph, g, false)
    ensures OnTrack(s0, Step(r, Reject), ph, g, removed)
  {
    if r.todo.Then? && r.todo.task.RetrieveCertificateTask? {
      assert r.state.pending != Some(g.outgoing) && !HasPromoted(ph) by { PendingIsAnother(r, ph, g); }
      hide Running, RejectOrder;
      RejectKeepsOthers(r.state, g.outgoing);
      NothingMoves(s0, r, RejectOrder(r.state), ph, g, removed);
    }
  }

  lemma PendingIsAnother(r: Run, ph: Phase, g: Plan)
    requires Running(r, ph, g, false) && !g.reuse && r.todo.Then? && r.todo.task.RetrieveCertificateTask?
    ensures r.state.pending != Some(g.outgoing) && !HasPromoted(ph)
  {
  }

  lemma RejectKeepsOthers(s: State, c: nat)
    requires s.pending != Some(c)
    ensures var s' := RejectOrder(s);
            && s' == s.(pending := s'.pending, certificates := s'.certificates)
            && (c in s.certificates ==> c in s'.certificates && s'.certificates[c] == s.certificates[c])
  {
  }

  lemma RestartStaysOnTrack(s0: State, r: Run, ph: Phase, g: Plan, removed: bool)
    requires OnTrack(s0, r, ph, g, removed) && Running(r, ph, g, false) && Restartable(r.state, g)
    requires r.todo.Then?
    ensures OnTrack(s0, Step(r, Restart), START, g, removed)
  {
    hide OnTrack, Running, TasksOf, Restartable, Only;
    TracksUpdates(s0, r, ph, g, removed);
    RestartIsBeforePromotion(r, ph, g);
    WhoRemoves(RestartKind(r.kind));
    BeginsAgain(s0, r, ph, g, removed, RestartKind(r.kind));
  }

  lemma BeginsAgain(s0: State, r: Run, ph: Phase, g: Plan, removed: bool, kind: Kind)
    requires OnTrack(s0, r, ph, g, removed) && !HasPromoted(ph) && Updates(kind) && (Removes(r.kind) ==> Removes(kind))
    requires Only(TasksOf(kind), Dropping) == If(Removes(kind), [RemoveOldDnsTask])
    ensures OnTrack(s0, Begin(r.state, kind), START, g, removed)
  {
    hide Cleared, SameElsewhere, Only, TasksOf;
  }

  lemma TracksUpdates(s0: State, r: Run, ph: Phase, g: Plan, removed: bool)
    requires OnTrack(s0, r, ph, g, removed)
    ensures Updates(r.kind) && r.state.domains == s0.domains && !g.reuse
  {
  }

  lemma RestartIsBeforePromotion(r: Run, ph: Phase, g: Plan)
    requires Running(r, ph, g, false) && Restartable(r.state, g) && !g.reuse
    ensures !HasPromoted(ph)
  {
  }

  lemma StepStaysOnTrack(s0: State, r: Run, ph: Phase, g: Plan, removed: bool, e: Event)
    returns (ph': Phase, removed': bool)
    requires OnTrack(s0, r, ph, g, removed) && Running(r, ph, g, false) && Admissible(r, g, e)
    ensures Running(Step(r, e), ph', g, false) && OnTrack(s0, Step(r, e), ph', g, removed')
  {
    hide Running, OnTrack;
    ph', removed' := ph, removed;
    TracksUpdates(s0, r, ph, g, removed);
    match e {
      case Try(budget) =>
        if r.todo.Then? { ph', removed' := TryStaysOnTrack(s0, r, ph, g, removed, budget); }
      case Reject =>
        RejectStepKeeps(r, ph, g, false);
        RejectStaysOnTrack(s0, r, ph, g, removed);
      case Restart =>
        ph' := RestartStepKeeps(r, ph, g, false);
        if r.todo.Then? { RestartStaysOnTrack(s0, r, ph, g, removed); }
        assert !r.kind.DedicatedToCdnWaf? by { TracksUpdates(s0, r, ph, g, removed); }
      case Churn(l, foreign, open) =>
        ChurnStepKeeps(r, ph, g, false, e);
        NothingMoves(s0, r, ChurnListener(r.state, l, foreign, open), ph, g, removed);
    }
  }

  lemma {:induction false} RunStaysOnTrack(
    s0: State, r: Run, ph: Phase, g: Plan, removed: bool, events: seq<Event>)
    returns (ph': Phase, removed': bool)
    requires OnTrack(s0, r, ph, g, removed) && Running(r, ph, g, false) && AdmissibleRun(r, g, events)
    ensures Running(Steps(r, events), ph', g, false) && OnTrack(s0, Steps(r, events), ph', g, removed')
    decreases |events|
  {
    hide Running, OnTrack, Step;
    ph', removed' := ph, removed;
    if events != [] {
      var ph1, removed1 := StepStaysOnTrack(s0, r, ph, g, removed, events[0]);
      ph', removed' := RunStaysOnTrack(s0, Step(r, events[0]), ph1, g, removed1, events[1..]);
    }
  }

  lemma BeginsOnTrack(s: State, kind: Kind, domains: seq<string>)
    requires Startable(s, kind, domains) && Applies(s, kind, domains)
    ensures OnTrack(Request(s, kind, domains), Begin(Request(s, kind, domains), kind), START,
                    PlanOf(s, kind, domains), false)
  {
    hide Only, TasksOf;
    WhoRemoves(kind);
  }

  lemma FinishedOnTrack(s0: State, r: Run, ph: Phase, g: Plan, removed: bool)
    requires OnTrack(s0, r, ph, g, removed) && r.todo.Finished?
    ensures if r.kind.CdnToCdnWaf? then SameElsewhere(s0.alias, r.state.alias, s0.domains)
            else Cleared(s0, r.state.alias)
  {
    hide Cleared, SameElsewhere;
  }

  // ---- main results ----

  /**
    A finished update that applied new domains has deleted, of the domains that the
    instance no longer has, exactly the ALIAS records of the old certificate's challenges
    that pointed at it. The move between distributions has no such task: unless the scan
    started it again, every one of them is still there.
   */
  lemma FinishedUpdateClears(s: State, kind: Kind, domains: seq<string>, events: seq<Event>)
    requires Startable(s, kind, domains) && Applies(s, kind, domains)
    requires AdmissibleRun(Begin(Request(s, kind, domains), kind), PlanOf(s, kind, domains), events)
    requires Steps(Begin(Request(s, kind, domains), kind), events).todo.Finished?
    ensures var r := Steps(Begin(Request(s, kind, domains), kind), events);
            if r.kind.CdnToCdnWaf? then SameElsewhere(s.alias, r.state.alias, domains)
            else var challenges := s.certificates[s.current.value].challenges;
                 ClearedElsewhere(s.alias, r.state.alias, challenges, domains, s.internal)
  {
    var s0, g := Request(s, kind, domains), PlanOf(s, kind, domains);
    BeginsOnTrack(s, kind, domains);
    StartRun(s, kind, domains);
    hide OnTrack, Running, AdmissibleRun, Steps, SameElsewhere, ClearedElsewhere, Steady;
    var ph, removed := RunStaysOnTrack(s0, Begin(s0, kind), START, g, false, events);
    FinishedOnTrack(s0, Steps(Begin(s0, kind), events), ph, g, removed);
  }

  lemma SteadyPointsHere(s: State, d: string)
    requires Steady(s) && d in s.domains
    ensures d in s.alias && Some(s.alias[d].target) == s.internal
  {
    assert d in Domains(s);
  }

  /** So a domain that the instance had, that its certificate had a challenge for and that
      the update drops, keeps a record pointing at the instance if and only if the update
      was such a move. */
  lemma DroppedDomainPointsHere(s: State, kind: Kind, domains: seq<string>, events: seq<Event>, d: string)
    requires Startable(s, kind, domains) && Applies(s, kind, domains)
    requires AdmissibleRun(Begin(Request(s, kind, domains), kind), PlanOf(s, kind, domains), events)
    requires Steps(Begin(Request(s, kind, domains), kind), events).todo.Finished?
    requires d in s.domains && Dropped(s.certificates[s.current.value].challenges, domains, d)
    ensures var r := Steps(Begin(Request(s, kind, domains), kind), events);
            && (d in r.state.alias <==> r.kind.CdnToCdnWaf?)
            && (r.kind.CdnToCdnWaf? ==> Some(r.state.alias[d].target) == r.state.internal)
  {
    hide Steady, AdmissibleRun, Steps;
    FinishedUpdateClears(s, kind, domains, events);
    SteadyPointsHere(s, d);
    if Steps(Begin(Request(s, kind, domains), kind), events).kind.CdnToCdnWaf? {
      KindStays(Begin(Request(s, kind, domains), kind), events);
      DistributionStays(s, kind, domains, events);
    }
  }

  lemma DistributionStays(s: State, kind: Kind, domains: seq<string>, events: seq<Event>)
    requires Startable(s, kind, domains) && PlaceNow(s).value.AtDistribution? && !Renewal(kind)
    requires AdmissibleRun(Begin(Request(s, kind, domains), kind), PlanOf(s, kind, domains), events)
    requires Steps(Begin(Request(s, kind, domains), kind), events).todo.Finished?
    ensures Steps(Begin(Request(s, kind, domains), kind), events).state.internal == s.internal
  {
    hide Steps, AdmissibleRun, Running;
    var g := PlanOf(s, kind, domains);
    StartRun(s, kind, domains);
    var ph := RunKeeps(Begin(Request(s, kind, domains), kind), START, g, false, events);
    FinishedAtDistribution(Steps(Begin(Request(s, kind, domains), kind), events), ph, g);
  }

  lemma FinishedAtDistribution(r: Run, ph: Phase, g: Plan)
    requires Running(r, ph, g, false) && r.todo.Finished? && g.place.AtDistribution?
    ensures r.state.internal == Some(TargetAt(g.place))
  {
  }

  // ---- it happens ----

  lemma {:induction false} TriesKeepKind(r: Run, events: seq<Event>)
    requires forall i :: 0 <= i < |events| ==> events[i].Try?
    ensures Steps(r, events).kind == r.kind
    decreases |events|
  {
    hide Execute;
    if events != [] { TriesKeepKind(Step(r, events[0]), events[1..]); }
  }

  lemma ProvisionedHasChallenges(s0: State, s: State)
    requires New(s0) && InUseNow(s0, s, CdnProvision, 13) && Steady(s) && s0.domains == ["example.gov"]
    ensures s.domains == s0.domains && Dropped(s.certificates[s.current.value].challenges, ["other.gov"], "example.gov")
  {
    assert s.certificates[CertificateId(s0)] == GoalRow(s0, CdnProvision);
    var challenges := Challenges(s0, 1);
    assert challenges[0] in challenges && challenges[0].domain == "example.gov";
  }

  lemma MoveApplies(s: State)
    requires Steady(s) && PlaceNow(s).value.AtDistribution? && s.domains == ["example.gov"]
    ensures Startable(s, CdnToCdnWaf, ["other.gov"]) && Applies(s, CdnToCdnWaf, ["other.gov"])
  {
    assert "other.gov" in multiset(["other.gov"]) && "other.gov" !in multiset(["example.gov"]);
  }

  /** A new instance is provisioned and moved to another domain and the plan with its own
      firewall; the old domain still leads to its distribution. */
  lemma AMoveLeavesARecord() returns (s0: State, provisioning: seq<Event>, moving: seq<Event>)
    ensures New(s0)
    ensures var provisioned := Steps(Begin(s0, CdnProvision), provisioning).state;
            var moved := Steps(Begin(Request(provisioned, CdnToCdnWaf, ["other.gov"]), CdnToCdnWaf), moving);
            && Steady(provisioned) && moved.todo.Finished? && Steady(moved.state)
            && moved.state.domains == ["other.gov"]
            && "example.gov" in moved.state.alias
            && Some(moved.state.alias["example.gov"].target) == moved.state.internal
  {
    hide New, InUseNow, Steady, Steps, RotationProgress.Available, Startable, Applies, Dropped;
    s0 := Lifecycle.ANewInstance(CdnProvision);
    provisioning := Lifecycle.ProvisioningFinishes(s0, CdnProvision, []);
    Lifecycle.AtBegin(Begin(s0, CdnProvision));
    var s := Steps(Begin(s0, CdnProvision), provisioning).state;
    Lifecycle.TopIsAvailable(s0, s, CdnProvision);
    ProvisionedHasChallenges(s0, s);
    MoveApplies(s);
    var r0 := Begin(Request(s, CdnToCdnWaf, ["other.gov"]), CdnToCdnWaf);
    Lifecycle.AtBegin(r0);
    moving := RotationProgress.RotationCanFinish(s, CdnToCdnWaf, ["other.gov"], []);
    TriesKeepKind(r0, moving);
    DroppedDomainPointsHere(s, CdnToCdnWaf, ["other.gov"], moving, "example.gov");
    Moves.OtherUpdatesApplyTheirDomains(s, CdnToCdnWaf, ["other.gov"], moving);
  }
}
