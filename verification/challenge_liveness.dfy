/**
  No challenge is answered before its record is live, in any pipeline, whatever
  faults, rejections and restarts its run goes through: the authority is told to
  look for a record only when the record is in the zone, with the contents of the
  challenge, and its change is in sync.
 */
module ChallengeLiveness {
  import opened Records
  import opened Tasks
  import opened Pipelines
  import opened Frames

  /** How far the TXT records of the pending order have come. */
  datatype Zone = Missing | Written | Synced

  function Next(w: Zone, t: Task): Zone {
    match t
    case CreateTxtTask => Written
    case WaitForChangesTask => if w.Missing? then Missing else Synced
    case _ => w
  }

  predicate Allowed(w: Zone, t: Task) {
    match t
    case GenerateKeyTask => w.Missing?
    case InitiateChallengesTask => w.Missing?
    case CreateTxtTask => w.Missing?
    case AnswerChallengesTask => w.Synced?
    case _ => true
  }

  /** Records are written, then waited for, before challenges are answered. */
  predicate Ordered(w: Zone, todo: Pipeline)
    decreases todo
  {
    todo.Finished? || (Allowed(w, todo.task) && Ordered(Next(w, todo.task), todo.rest))
  }

  // ---- the invariant ----

  /** The challenges still to answer for the pending certificate. */
  ghost predicate Open(s: State, c: Challenge) {
    && s.pending.Some? && s.pending.value in s.certificates
    && c in s.certificates[s.pending.value].challenges && !c.answered
  }

  /** Challenges are for the instance's domains, each with the contents its order
      asks for. */
  ghost predicate Drawn(s: State) {
    forall c :: Open(s, c) ==>
      && s.certificates[s.pending.value].order.Some?
      && c.domain in s.domains
      && c.contents == Token(s.certificates[s.pending.value].order.value, c.domain)
  }

  predicate InZone(s: State, c: Challenge) {
    c.domain in s.txt && s.txt[c.domain].contents == c.contents
  }

  ghost predicate ChangesFresh(s: State) {
    && (forall c :: c in s.insync ==> c < s.nextChange)
    && (forall c :: c in s.changeIds ==> c < s.nextChange)
  }

  ghost predicate RecordsAre(s: State, w: Zone) {
    && (!w.Missing? ==> forall c :: Open(s, c) ==>
          InZone(s, c) && (s.txt[c.domain].change in s.insync || s.txt[c.domain].change in s.changeIds))
    && (w.Synced? ==> forall c :: Open(s, c) ==> InZone(s, c) && s.txt[c.domain].change in s.insync)
  }

  /** Every challenge sent so far was live when it was sent. */
  ghost predicate AllLive(s: State) {
    forall a :: a in s.answers ==> a.live
  }

  ghost predicate Waiting(s: State, w: Zone) {
    Drawn(s) && ChangesFresh(s) && RecordsAre(s, w) && AllLive(s)
  }

  // ---- the tasks ----

  lemma KeyWaits(s: State, budget: nat)
    requires Waiting(s, Missing)
    ensures Waiting(GenerateKey(s, budget).state, Missing)
  {
    var s' := GenerateKey(s, budget).state;
    if s' != s {
      assert forall c :: !Open(s', c);
    }
  }

  lemma OrderWaits(s: State, budget: nat)
    requires Waiting(s, Missing)
    ensures Waiting(InitiateChallenges(s, budget).state, Missing)
  {
    var s' := InitiateChallenges(s, budget).state;
    if s' != s {
      forall c | Open(s', c) ensures c.domain in s'.domains && c.contents == Token(s.nextId, c.domain) {
        var i :| 0 <= i < |s.domains| && c == NewChallenge(s.nextId, s.authorized, s.domains[i]);
      }
    }
  }

  /** The records of the first challenges are written and their changes stored. */
  ghost predicate StoredUpTo(s: State, challenges: seq<Challenge>, i: nat)
    requires i <= |challenges|
  {
    forall c :: c in challenges[..i] && !c.answered ==> InZone(s, c) && s.txt[c.domain].change in s.changeIds
  }

  lemma UpsertWaits(s: State, c: Challenge)
    requires Waiting(s, Missing)
    ensures Waiting(UpsertTxt(s, c), Missing)
  {
    var s' := UpsertTxt(s, c);
    assert forall d :: Open(s', d) <==> Open(s, d);
  }

  /** All challenges of one order: a later record for a domain has the same contents. */
  lemma UpsertStores(s: State, challenges: seq<Challenge>, order: nat, i: nat)
    requires i < |challenges| && StoredUpTo(s, challenges, i)
    requires forall c :: c in challenges && !c.answered ==> c.contents == Token(order, c.domain)
    requires !challenges[i].answered
    ensures StoredUpTo(UpsertTxt(s, challenges[i]), challenges, i + 1)
  {
    var s' := UpsertTxt(s, challenges[i]);
    assert s'.changeIds[|s.changeIds|] == s.nextChange;
    assert forall k :: k in s.changeIds ==> k in s'.changeIds;
    forall c | c in challenges[..i + 1] && !c.answered
      ensures InZone(s', c) && s'.txt[c.domain].change in s'.changeIds
    {
      assert c in challenges[..i] || c == challenges[i];
      assert challenges[i] in challenges && c in challenges;
    }
  }

  lemma {:induction false} TxtsWait(s: State, challenges: seq<Challenge>, order: nat, i: nat, budget: nat)
    requires Waiting(s, Missing) && i <= |challenges| && StoredUpTo(s, challenges, i)
    requires forall c :: c in challenges && !c.answered ==> c.contents == Token(order, c.domain)
    ensures var o := UpsertTxts(s, challenges[i..], budget);
            && Waiting(o.state, Missing)
            && o.state.pending == s.pending && o.state.certificates == s.certificates
            && (o.ok ==> StoredUpTo(o.state, challenges, |challenges|))
    decreases |challenges| - i
  {
    hide Waiting, InZone;
    if i < |challenges| {
      assert challenges[i..][0] == challenges[i] && challenges[i..][1..] == challenges[i + 1..];
      if challenges[i].answered {
        assert challenges[..i + 1] == challenges[..i] + [challenges[i]];
        TxtsWait(s, challenges, order, i + 1, budget);
      } else if budget > 0 {
        UpsertWaits(s, challenges[i]);
        UpsertStores(s, challenges, order, i);
        TxtsWait(UpsertTxt(s, challenges[i]), challenges, order, i + 1, budget - 1);
      }
    }
  }

  lemma AllStored(s: State, challenges: seq<Challenge>)
    requires Waiting(s, Missing) && StoredUpTo(s, challenges, |challenges|)
    requires s.pending.Some? && s.pending.value in s.certificates
    requires challenges == s.certificates[s.pending.value].challenges
    ensures Waiting(s, Written)
  {
    assert challenges[..|challenges|] == challenges;
  }

  lemma TxtTaskWaits(s: State, budget: nat)
    requires Waiting(s, Missing)
    ensures var o := CreateTxtRecords(s, budget);
            Waiting(o.state, if o.ok then Written else Missing)
  {
    if s.pending.Some? && s.pending.value in s.certificates {
      var row := s.certificates[s.pending.value];
      var order := if row.order.Some? then row.order.value else 0;
      assert forall c :: c in row.challenges && !c.answered ==> Open(s, c);
      assert row.challenges[0..] == row.challenges;
      TxtsWait(s, row.challenges, order, 0, budget);
      var o := CreateTxtRecords(s, budget);
      if o.ok { AllStored(o.state, row.challenges); }
    }
  }

  lemma WaitOneWaits(s: State, w: Zone)
    requires Waiting(s, w) && s.changeIds != []
    ensures Waiting(WaitOne(s), w)
  {
    var s' := WaitOne(s);
    assert s.changeIds[0] in s.changeIds;
    assert forall c :: c in s'.changeIds ==> c in s.changeIds;
    assert forall c :: c in s.changeIds ==> c == s.changeIds[0] || c in s'.changeIds;
    assert forall d :: Open(s', d) <==> Open(s, d);
  }

  lemma {:induction false} WaitWaits(s: State, w: Zone, budget: nat)
    requires Waiting(s, w)
    ensures var o := WaitForChanges(s, budget);
            Waiting(o.state, if o.ok then Next(w, WaitForChangesTask) else w)
    decreases |s.changeIds|
  {
    if s.changeIds != [] && budget > 0 {
      hide Waiting;
      WaitOneWaits(s, w);
      WaitWaits(WaitOne(s), w, budget - 1);
    }
  }

  /** Only records of names the instance gave up are removed. */
  lemma RemoveOneWaits(s: State, w: Zone, c: Challenge)
    requires Waiting(s, w) && c.domain !in s.domains
    ensures Waiting(DeleteOldRecords(s, c), w)
  {
    assert forall d :: Open(DeleteOldRecords(s, c), d) <==> Open(s, d);
  }

  lemma {:induction false} RemoveWaits(s: State, w: Zone, todo: seq<Challenge>)
    requires Waiting(s, w)
    ensures Waiting(DeleteOlds(s, todo), w)
    decreases |todo|
  {
    hide Waiting;
    if todo == [] {
    } else if todo[0].domain in s.domains {
      RemoveWaits(s, w, todo[1..]);
    } else {
      RemoveOneWaits(s, w, todo[0]);
      RemoveWaits(DeleteOldRecords(s, todo[0]), w, todo[1..]);
    }
  }

  lemma AnswerOneWaits(s: State, i: nat)
    requires Waiting(s, Synced) && s.pending.Some? && s.pending.value in s.certificates
    requires i < |s.certificates[s.pending.value].challenges|
    requires !s.certificates[s.pending.value].challenges[i].answered
    ensures Live(s, s.certificates[s.pending.value].challenges[i])
    ensures Waiting(AnswerOne(s, s.pending.value, i), Synced)
  {
    var s' := AnswerOne(s, s.pending.value, i);
    assert Open(s, s.certificates[s.pending.value].challenges[i]);
    assert forall d :: Open(s', d) ==> Open(s, d);
  }

  lemma {:induction false} AnswersWait(s: State, i: nat, budget: nat)
    requires Waiting(s, Synced) && s.pending.Some? && s.pending.value in s.certificates
    requires i <= |s.certificates[s.pending.value].challenges|
    ensures Waiting(AnswerFrom(s, s.pending.value, i, budget).state, Synced)
    decreases |s.certificates[s.pending.value].challenges| - i
  {
    hide Waiting;
    if i < |s.certificates[s.pending.value].challenges| {
      if s.certificates[s.pending.value].challenges[i].answered {
        AnswersWait(s, i + 1, budget);
      } else if budget > 0 {
        AnswerOneWaits(s, i);
        AnswersWait(AnswerOne(s, s.pending.value, i), i + 1, budget - 1);
      }
    }
  }

  /** A state with no challenge open that was not open before, and the same TXT
      records and changes. */
  predicate SameRecords(s: State, s': State) {
    && s'.domains == s.domains && s'.txt == s.txt && s'.answers == s.answers
    && s.insync <= s'.insync && s'.nextChange >= s.nextChange
  }

  lemma QuietWaits(s: State, s': State, w: Zone)
    requires Waiting(s, w) && SameRecords(s, s')
    requires s'.insync == s.insync && (forall c :: c in s.changeIds ==> c in s'.changeIds) && ChangesFresh(s')
    requires forall c :: Open(s', c) ==>
                           && Open(s, c) && s'.pending == s.pending
                           && s'.certificates[s'.pending.value].order == s.certificates[s.pending.value].order
    ensures Waiting(s', w)
  {
  }

  lemma {:induction false} AliasesWait(s: State, w: Zone, todo: seq<string>, budget: nat)
    requires Waiting(s, w)
    ensures Waiting(UpsertAliases(s, todo, budget).state, w)
    decreases |todo|
  {
    hide Waiting;
    if todo != [] && budget > 0 && s.internal.Some? {
      AliasWaits(s, w, todo[0], s.internal.value);
      AliasesWait(UpsertAlias(s, todo[0], s.internal.value), w, todo[1..], budget - 1);
    }
  }

  lemma AliasWaits(s: State, w: Zone, domain: string, target: Target)
    requires Waiting(s, w)
    ensures Waiting(UpsertAlias(s, domain, target), w)
  {
    assert forall d :: Open(UpsertAlias(s, domain, target), d) <==> Open(s, d);
  }

  lemma DeleteWaits(s: State, w: Zone, p: Partition, budget: nat)
    requires Waiting(s, w)
    ensures Waiting(DeletePreviousCertificates(s, p, budget).state, w)
  {
    DeletionFrame(s, p, Ascending(Others(s)), budget);
    QuietWaits(s, DeletePreviousCertificates(s, p, budget).state, w);
  }

  // ---- whole runs ----

  predicate OrderTask(t: Task) {
    || t.GenerateKeyTask? || t.InitiateChallengesTask? || t.CreateTxtTask? || t.WaitForChangesTask?
    || t.AnswerChallengesTask?
  }

  lemma OrderTaskWaits(t: Task, provisioning: bool, s: State, w: Zone, budget: nat)
    requires Waiting(s, w) && Allowed(w, t) && OrderTask(t)
    ensures var o := Execute(t, provisioning, s, budget);
            Waiting(o.state, if o.ok then Next(w, t) else w)
  {
    hide Waiting;
    match t {
      case GenerateKeyTask => KeyWaits(s, budget);
      case InitiateChallengesTask => OrderWaits(s, budget);
      case CreateTxtTask => TxtTaskWaits(s, budget);
      case WaitForChangesTask => WaitWaits(s, w, budget);
      case AnswerChallengesTask =>
        if s.pending.Some? && s.pending.value in s.certificates {
          AnswersWait(s, 0, budget);
        }
    }
  }

  lemma RetrieveWaits(s: State, w: Zone, budget: nat)
    requires Waiting(s, w)
    ensures Waiting(RetrieveCertificate(s, budget).state, w)
  {
    QuietWaits(s, RetrieveCertificate(s, budget).state, w);
  }

  lemma UploadWaits(s: State, w: Zone, p: Partition, budget: nat)
    requires Waiting(s, w)
    ensures Waiting(UploadServerCertificate(s, p, budget).state, w)
  {
    QuietWaits(s, UploadServerCertificate(s, p, budget).state, w);
  }

  predicate PlaceTask(t: Task) {
    || t.CreateUserTask? || t.SelectAlbTask? || t.SelectDedicatedAlbTask? || t.AddCertificateToAlbTask?
    || t.CreateDistributionTask? || t.UpdateDistributionTask? || t.UpdateCertificateTask?
    || t.RemoveFromPreviousAlbTask? || t.RemoveFromPreviousDuringUpdateToDedicatedTask?
    || t.RemoveAlbCertificateDuringUpdateToCdnTask? || t.StoreAlbCertificateTask?
  }

  /** Nothing that challenges depend on differs, but a certificate may have been promoted. */
  predicate SameOrders(s: State, s': State) {
    && s'.domains == s.domains && s'.certificates == s.certificates && s'.txt == s.txt && s'.answers == s.answers
    && s'.insync == s.insync && s'.changeIds == s.changeIds && s'.nextChange == s.nextChange
    && (s'.pending == s.pending || s'.pending.None?)
  }

  predicate PromotingTask(t: Task) {
    || t.AddCertificateToAlbTask? || t.CreateDistributionTask? || t.UpdateDistributionTask? || t.UpdateCertificateTask?
  }

  lemma PromotingKeepsOrders(t: Task, provisioning: bool, s: State, budget: nat)
    requires PromotingTask(t)
    ensures SameOrders(s, Execute(t, provisioning, s, budget).state)
  {
  }

  lemma SelectKeepsOrders(s: State, listeners: seq<Listener>, provisioning: bool, budget: nat)
    ensures SameOrders(s, SelectFrom(s, listeners, provisioning, budget).state)
  {
  }

  lemma RemoveKeepsOrders(s: State, budget: nat)
    ensures SameOrders(s, RemoveCertificateFromPreviousAlb(s, budget).state)
  {
    hide Others, Ascending;
  }

  lemma RemoveDuringMoveKeepsOrders(s: State, budget: nat)
    ensures SameOrders(s, RemoveFromPreviousAlbDuringUpdateToDedicated(s, budget).state)
  {
  }

  lemma RetireKeepsOrders(s: State, budget: nat)
    ensures SameOrders(s, RemoveAlbCertificateDuringUpdateToCdn(s, budget).state)
  {
  }

  lemma AccountKeepsOrders(s: State, budget: nat)
    ensures SameOrders(s, CreateUser(s, budget).state) && SameOrders(s, StoreAlbCertificate(s).state)
  {
  }

  lemma OtherKeepsOrders(t: Task, provisioning: bool, s: State, budget: nat)
    requires PlaceTask(t) && !PromotingTask(t)
    ensures SameOrders(s, Execute(t, provisioning, s, budget).state)
  {
    hide SameOrders;
    SelectKeepsOrders(s, s.shared, provisioning, budget);
    SelectKeepsOrders(s, s.dedicated, provisioning, budget);
    RemoveKeepsOrders(s, budget);
    RemoveDuringMoveKeepsOrders(s, budget);
    RetireKeepsOrders(s, budget);
    AccountKeepsOrders(s, budget);
  }

  lemma SameOrdersWait(s: State, s': State, w: Zone)
    requires Waiting(s, w) && SameOrders(s, s')
    ensures Waiting(s', w)
  {
    QuietWaits(s, s', w);
  }

  lemma PlaceTaskWaits(t: Task, provisioning: bool, s: State, w: Zone, budget: nat)
    requires Waiting(s, w) && PlaceTask(t)
    ensures Waiting(Execute(t, provisioning, s, budget).state, w)
  {
    hide Waiting, SameOrders, Execute;
    if PromotingTask(t) {
      PromotingKeepsOrders(t, provisioning, s, budget);
    } else {
      OtherKeepsOrders(t, provisioning, s, budget);
    }
    SameOrdersWait(s, Execute(t, provisioning, s, budget).state, w);
  }

  lemma ExecuteWaits(t: Task, provisioning: bool, s: State, w: Zone, budget: nat)
    requires Waiting(s, w) && Allowed(w, t)
    ensures var o := Execute(t, provisioning, s, budget);
            Waiting(o.state, if o.ok then Next(w, t) else w)
  {
    hide Waiting;
    if OrderTask(t) {
      OrderTaskWaits(t, provisioning, s, w, budget);
    } else if PlaceTask(t) {
      PlaceTaskWaits(t, provisioning, s, w, budget);
    } else if t.RetrieveCertificateTask? {
      RetrieveWaits(s, w, budget);
    } else if t.UploadTask? {
      UploadWaits(s, w, t.partition, budget);
    } else if t.CreateAliasTask? {
      AliasesWait(s, w, s.domains, budget);
    } else if t.RemoveOldDnsTask? {
      if s.current.Some? && s.current.value in s.certificates {
        RemoveWaits(s, w, s.certificates[s.current.value].challenges);
      }
    } else if t.DeletePreviousTask? {
      DeleteWaits(s, w, t.partition, budget);
    }
  }

  ghost predicate Running(r: Run, w: Zone) {
    Waiting(r.state, w) && Ordered(w, r.todo) && Ordered(Missing, TasksOf(RestartKind(r.kind)))
  }

  /** A restart forgets that the records were written. */
  lemma Forget(s: State, w: Zone)
    requires Waiting(s, w)
    ensures Waiting(s, Missing)
  {
  }

  lemma RejectWaits(s: State, w: Zone)
    requires Waiting(s, w)
    ensures Waiting(RejectOrder(s), w)
  {
    QuietWaits(s, RejectOrder(s), w);
  }

  lemma ChurnWaits(s: State, w: Zone, e: Event)
    requires Waiting(s, w) && e.Churn?
    ensures Waiting(ChurnListener(s, e.listener, e.foreign, e.open), w)
  {
    QuietWaits(s, ChurnListener(s, e.listener, e.foreign, e.open), w);
  }

  lemma FirstInOrder(w: Zone, todo: Pipeline)
    requires Ordered(w, todo) && todo.Then?
    ensures Allowed(w, todo.task) && Ordered(Next(w, todo.task), todo.rest)
  {
  }

  lemma StepWaits(r: Run, w: Zone, e: Event) returns (w': Zone)
    requires Running(r, w)
    ensures Running(Step(r, e), w')
  {
    hide Waiting, Execute, RejectOrder, ChurnListener, TasksOf, Ordered;
    w' := w;
    match e {
      case Try(budget) =>
        if r.todo.Then? {
          FirstInOrder(w, r.todo);
          ExecuteWaits(r.todo.task, Provisions(r.kind), r.state, w, budget);
          if Execute(r.todo.task, Provisions(r.kind), r.state, budget).ok { w' := Next(w, r.todo.task); }
        }
      case Reject => RejectWaits(r.state, w);
      case Restart =>
        if r.todo.Then? && !r.kind.DedicatedToCdnWaf? {
          Forget(r.state, w);
          w' := Missing;
        }
      case Churn(_, _, _) => ChurnWaits(r.state, w, e);
    }
  }

  lemma {:induction false} RunWaits(r: Run, w: Zone, events: seq<Event>) returns (w': Zone)
    requires Running(r, w)
    ensures Running(Steps(r, events), w')
    decreases |events|
  {
    hide Running, Step;
    w' := w;
    if events != [] {
      var w1 := StepWaits(r, w, events[0]);
      w' := RunWaits(Step(r, events[0]), w1, events[1..]);
    }
  }

  // ---- the pipelines are ordered ----

  /** The part after the certificate is issued neither orders nor answers. */
  predicate Settled(todo: Pipeline)
    decreases todo
  {
    todo.Finished? || ((!OrderTask(todo.task) || todo.task.WaitForChangesTask?) && Settled(todo.rest))
  }

  lemma {:induction false} SettledIsOrdered(w: Zone, todo: Pipeline)
    requires Settled(todo)
    ensures Ordered(w, todo)
    decreases todo
  {
    if todo.Then? { SettledIsOrdered(Next(w, todo.task), todo.rest); }
  }

  lemma IssueIsOrdered(p: Partition, rest: Pipeline)
    requires Settled(rest)
    ensures Ordered(Missing, Issue(p, rest))
    ensures Ordered(Missing, Then(CreateUserTask, Issue(p, rest)))
  {
    var q := Then(RetrieveCertificateTask, Then(UploadTask(p), rest));
    SettledIsOrdered(Synced, q);
    assert Ordered(Written, Then(WaitForChangesTask, Then(AnswerChallengesTask, q)));
    assert Ordered(Missing, Then(CreateTxtTask, Then(WaitForChangesTask, Then(AnswerChallengesTask, q))));
  }

  lemma ReissueIsOrdered(p: Partition, rest: Pipeline)
    requires Settled(rest)
    ensures Ordered(Missing, Reissue(p, rest))
    ensures Ordered(Missing, Then(StoreAlbCertificateTask, Reissue(p, rest)))
  {
    var q := Then(RetrieveCertificateTask, Then(UploadTask(p), rest));
    SettledIsOrdered(Synced, q);
    assert Ordered(Synced, Then(RemoveOldDnsTask, Then(AnswerChallengesTask, q)));
    var u := Then(CreateTxtTask, Then(WaitForChangesTask, Then(RemoveOldDnsTask, Then(AnswerChallengesTask, q))));
    assert Ordered(Missing, u);
    assert Ordered(Missing, Then(GenerateKeyTask, Then(InitiateChallengesTask, u)));
  }

  lemma PointDnsIsSettled(rest: Pipeline)
    requires Settled(rest)
    ensures Settled(PointDns(rest)) && Settled(AlbWaf(PointDns(rest)))
    ensures Settled(ToAlb(PointDns(rest))) && Settled(ToDedicatedAlb(PointDns(rest)))
    ensures Settled(ToDedicatedAlb(AlbWaf(PointDns(rest))))
    ensures Settled(Then(CreateDistributionTask, Then(WaitForDistributionTask, PointDns(rest))))
    ensures Settled(Then(UpdateDistributionTask, Then(WaitForDistributionTask, PointDns(rest))))
  {
    assert Settled(PointDns(rest));
    assert Settled(Then(AssociateWebAclTask, PointDns(rest)));
    assert Settled(AlbWaf(PointDns(rest)));
    assert Settled(Then(AddCertificateToAlbTask, PointDns(rest)));
    assert Settled(Then(AddCertificateToAlbTask, AlbWaf(PointDns(rest))));
    assert Settled(Then(WaitForDistributionTask, PointDns(rest)));
  }

  lemma MonitorIsSettled(rest: Pipeline)
    requires Settled(rest)
    ensures Settled(Monitor(rest)) && Settled(UpdateMonitoring(rest))
  {
    var p := Then(CreateHealthCheckAlarmsTask, Then(CreateDdosAlarmTask, rest));
    assert Settled(p);
    assert Settled(Then(CreateNewHealthChecksTask, Then(AssociateHealthCheckTask, p)));
    var q := Then(DeleteUnusedHealthChecksTask, Then(DeleteHealthCheckAlarmsTask, p));
    assert Settled(q);
    assert Settled(CheckUpdates(rest));
    assert Settled(Then(SubscribeTopicTask, CheckUpdates(rest)));
  }

  lemma EndsAreSettled()
    ensures Settled(Then(ProvisionTask, Finished)) && Settled(Then(UpdateCompleteTask, Finished))
    ensures Settled(CleanUpAlb(GovCloud))
    ensures Settled(Then(RemoveFromPreviousDuringUpdateToDedicatedTask, Then(ProvisionTask, Finished)))
    ensures Settled(RetireAlb(GovCloud))
  {
    var p := Then(ChangeToCdnDedicatedWafTask, Then(UpdateCompleteTask, Finished));
    assert Settled(p);
    assert Settled(Then(DeletePreviousTask(GovCloud), p));
    assert Settled(Then(DeletePreviousTask(GovCloud), Then(ProvisionTask, Finished)));
  }

  lemma ProvisionIsOrdered(kind: Kind)
    requires Provisions(kind)
    ensures Ordered(Missing, TasksOf(kind))
  {
    hide Ordered, Settled;
    EndsAreSettled();
    var end := Then(ProvisionTask, Finished);
    PointDnsIsSettled(end);
    match kind {
      case AlbProvision => IssueIsOrdered(GovCloud, ToAlb(PointDns(end)));
      case DedicatedProvision => IssueIsOrdered(GovCloud, ToDedicatedAlb(AlbWaf(PointDns(end))));
      case CdnProvision =>
        IssueIsOrdered(Commercial, Then(CreateDistributionTask, Then(WaitForDistributionTask, PointDns(end))));
      case CdnWafProvision =>
        MonitorIsSettled(end);
        PointDnsIsSettled(Monitor(end));
        WafIsSettled(Then(CreateDistributionTask, Then(WaitForDistributionTask, PointDns(Monitor(end)))));
        IssueIsOrdered(Commercial, ToNewDistribution(Monitor(end)));
    }
  }

  predicate AlbRotation(kind: Kind) {
    kind.AlbUpdate? || kind.AlbRenewal? || kind.DedicatedUpdate? || kind.DedicatedRenewal?
  }

  lemma AlbRotationIsOrdered(kind: Kind)
    requires AlbRotation(kind)
    ensures Ordered(Missing, TasksOf(kind))
  {
    hide Ordered, Settled;
    EndsAreSettled();
    var p := PointDns(CleanUpAlb(GovCloud));
    PointDnsIsSettled(CleanUpAlb(GovCloud));
    match kind {
      case AlbUpdate => ReissueIsOrdered(GovCloud, ToAlb(p));
      case AlbRenewal => IssueIsOrdered(GovCloud, ToAlb(p));
      case DedicatedUpdate => ReissueIsOrdered(GovCloud, ToDedicatedAlb(AlbWaf(p)));
      case DedicatedRenewal => IssueIsOrdered(GovCloud, ToDedicatedAlb(p));
    }
  }

  lemma RedistributeIsSettled(rest: Pipeline)
    requires Settled(rest)
    ensures Settled(Redistribute(rest))
    ensures Settled(Then(CreateWebAclTask, Redistribute(rest)))
    ensures Settled(Then(CreateWebAclTask, Then(PutWafLoggingTask, Redistribute(rest))))
  {
    assert Settled(Then(DeletePreviousTask(Commercial), rest));
    PointDnsIsSettled(Then(DeletePreviousTask(Commercial), rest));
    assert Settled(Then(PutWafLoggingTask, Redistribute(rest)));
  }

  predicate CdnRotation(kind: Kind) {
    kind.CdnUpdate? || kind.CdnRenewal? || kind.CdnWafUpdate? || kind.CdnToCdnWaf?
  }

  lemma CdnRotationIsOrdered(kind: Kind)
    requires CdnRotation(kind)
    ensures Ordered(Missing, TasksOf(kind))
  {
    EndsAreSettled();
    var end := Then(UpdateCompleteTask, Finished);
    MonitorIsSettled(end);
    match kind {
      case CdnUpdate =>
        RedistributeIsSettled(end);
        ReissueIsOrdered(Commercial, Redistribute(end));
      case CdnRenewal =>
        var p := Then(DeletePreviousTask(Commercial), Then(ProvisionTask, Finished));
        assert Settled(p);
        IssueIsOrdered(Commercial, Then(UpdateCertificateTask, p));
      case CdnWafUpdate =>
        var p := Redistribute(UpdateMonitoring(end));
        RedistributeIsSettled(UpdateMonitoring(end));
        ReissueIsOrdered(Commercial, Then(CreateWebAclTask, Then(PutWafLoggingTask, p)));
      case CdnToCdnWaf =>
        RedistributeIsSettled(Monitor(end));
        IssueIsOrdered(Commercial, Then(CreateWebAclTask, Redistribute(Monitor(end))));
    }
  }

  lemma MoveIsOrdered(kind: Kind)
    requires kind.AlbToDedicated? || kind.DedicatedToCdnWaf?
    ensures Ordered(Missing, TasksOf(kind))
  {
    hide Ordered, Settled;
    EndsAreSettled();
    if kind.AlbToDedicated? {
      PointDnsIsSettled(Then(RemoveFromPreviousDuringUpdateToDedicatedTask, Then(ProvisionTask, Finished)));
      SettledIsOrdered(Missing, TasksOf(kind));
    } else {
      var p := Monitor(RetireAlb(GovCloud));
      MonitorIsSettled(RetireAlb(GovCloud));
      PointDnsIsSettled(p);
      WafIsSettled(Then(CreateDistributionTask, Then(WaitForDistributionTask, PointDns(p))));
      ReissueIsOrdered(Commercial, ToNewDistribution(p));
    }
  }

  lemma WafIsSettled(rest: Pipeline)
    requires Settled(rest)
    ensures Settled(Then(CreateWebAclTask, Then(PutWafLoggingTask, rest)))
  {
    assert Settled(Then(PutWafLoggingTask, rest));
  }

  lemma PipelineIsOrdered(kind: Kind)
    ensures Ordered(Missing, TasksOf(kind))
  {
    if Provisions(kind) {
      ProvisionIsOrdered(kind);
    } else if AlbRotation(kind) {
      AlbRotationIsOrdered(kind);
    } else if CdnRotation(kind) {
      CdnRotationIsOrdered(kind);
    } else {
      MoveIsOrdered(kind);
    }
  }

  /**
    Every challenge is live when it is answered. Start any pipeline with no
    challenge open, or with open challenges of an earlier try for domains the
    instance still has; run it through any events. Every challenge sent to the
    authority had its record, with its contents, in the zone and in sync.
   */
  lemma EveryChallengeIsLive(s: State, kind: Kind, events: seq<Event>)
    requires Drawn(s) && ChangesFresh(s) && AllLive(s)
    ensures AllLive(Steps(Begin(s, kind), events).state)
  {
    hide Ordered, TasksOf;
    PipelineIsOrdered(kind);
    PipelineIsOrdered(RestartKind(kind));
    var w := RunWaits(Begin(s, kind), Missing, events);
  }

  /** Nor does the removal of old records take one that an open challenge needs. */
  lemma RemovalSparesOpenChallenges(s: State, c: Challenge)
    requires Drawn(s) && Open(s, c)
    ensures var s' := RemoveOldDnsRecords(s).state;
            InZone(s', c) == InZone(s, c) && (InZone(s, c) ==> s'.txt[c.domain] == s.txt[c.domain])
  {
    if s.current.Some? && s.current.value in s.certificates {
      RemovalSpares(s, s.certificates[s.current.value].challenges, c.domain);
    }
  }

  lemma {:induction false} RemovalSpares(s: State, todo: seq<Challenge>, domain: string)
    requires domain in s.domains
    ensures var s' := DeleteOlds(s, todo);
            (domain in s'.txt <==> domain in s.txt) && (domain in s.txt ==> s'.txt[domain] == s.txt[domain])
    decreases |todo|
  {
    if todo == [] {
    } else if todo[0].domain in s.domains {
      RemovalSpares(s, todo[1..], domain);
    } else {
      RemovalSpares(DeleteOldRecords(s, todo[0]), todo[1..], domain);
    }
  }
}
