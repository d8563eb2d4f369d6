/**
  Certificate rotation never takes a domain down.

  A rotation replaces the certificate `outgoing`, serving at `place`, by another
  one. `InRotation` says what holds at each phase of any pipeline that follows
  the phase order (`Safe`); every pipeline that rotates a certificate of a
  running instance does. From it: whatever a resolver is told, it reaches a load
  balancer or a distribution that holds a certificate of the instance for that
  name; IAM is never asked to delete a certificate in use; and the run ends in a
  steady state again.
 */
module Rotation {
  import opened Wrappers
  import opened Records
  import opened Tasks
  import opened Pipelines

  datatype Place = AtListener(listener: Listener) | AtDistribution(id: nat)

  function TargetAt(p: Place): Target {
    match p
    case AtListener(l) => TargetOf(l)
    case AtDistribution(id) => Distribution(id)
  }

  function PartitionAt(p: Place): Partition {
    if p.AtListener? then GovCloud else Commercial
  }

  /** `domains` are the domains of the instance, `kept` those that the old certificate serves and the instance
      keeps; `reuse` says that the current certificate is promoted again. */
  datatype Plan = Plan(
    outgoing: nat, place: Place, domains: set<string>, kept: set<string>, reuse: bool, toCdn: bool)

  datatype Stage = Issuing | Selected | Promoted | Aliased | Synced

  datatype Phase = Phase(stage: Stage, detached: bool, cleaned: bool)

  const START := Phase(Issuing, false, false)

  predicate HasPromoted(ph: Phase) {
    ph.stage.Promoted? || ph.stage.Aliased? || ph.stage.Synced?
  }

  function Next(ph: Phase, t: Task): Phase {
    match t
    case SelectAlbTask => ph.(stage := Selected)
    case SelectDedicatedAlbTask => ph.(stage := Selected)
    case AddCertificateToAlbTask => ph.(stage := Promoted)
    case CreateDistributionTask => ph.(stage := Promoted)
    case UpdateDistributionTask => ph.(stage := Promoted, detached := true)
    case UpdateCertificateTask => ph.(stage := Synced, detached := true)
    case CreateAliasTask => ph.(stage := Aliased)
    case WaitForChangesTask => if ph.stage.Aliased? then ph.(stage := Synced) else ph
    case RemoveFromPreviousAlbTask => ph.(detached := true)
    case RemoveFromPreviousDuringUpdateToDedicatedTask => ph.(detached := true)
    case RemoveAlbCertificateDuringUpdateToCdnTask => ph.(detached := true)
    case DeletePreviousTask(_) => ph.(cleaned := true)
    case _ => ph
  }

  /** What a task needs of the phase: attach before pointing DNS, point DNS and
      wait before detaching, detach before deleting. `all` says that
      the old certificate serves every domain. */
  predicate Allowed(ph: Phase, t: Task, g: Plan, all: bool) {
    match t
    case CreateUserTask => ph.stage.Issuing?
    case GenerateKeyTask => ph.stage.Issuing?
    case InitiateChallengesTask => ph.stage.Issuing?
    case CreateTxtTask => ph.stage.Issuing?
    case WaitForChangesTask => !ph.stage.Selected?
    case RemoveOldDnsTask => ph.stage.Issuing?
    case AnswerChallengesTask => ph.stage.Issuing?
    case RetrieveCertificateTask => ph.stage.Issuing?
    case UploadTask(p) => ph.stage.Issuing? && p == (if g.toCdn then Commercial else GovCloud)
    case StoreAlbCertificateTask => ph.stage.Issuing? && g.place.AtListener? && g.toCdn
    case SelectAlbTask => ph.stage.Issuing? && g.place.AtListener? && !g.toCdn && !g.reuse
    case SelectDedicatedAlbTask => ph.stage.Issuing? && g.place.AtListener? && !g.toCdn
    case AddCertificateToAlbTask => ph.stage.Selected?
    case CreateDistributionTask => ph.stage.Issuing? && g.place.AtListener? && g.toCdn && !g.reuse
    case UpdateDistributionTask => ph.stage.Issuing? && g.place.AtDistribution?
    case UpdateCertificateTask => ph.stage.Issuing? && g.place.AtDistribution? && all
    case CreateAliasTask => ph.stage.Promoted?
    case RemoveFromPreviousAlbTask =>
      ph.stage.Synced? && !ph.detached && g.place.AtListener? && !g.toCdn
    case RemoveFromPreviousDuringUpdateToDedicatedTask =>
      ph.stage.Synced? && !ph.detached && g.place.AtListener? && !g.toCdn && g.reuse
    case RemoveAlbCertificateDuringUpdateToCdnTask =>
      ph.stage.Synced? && !ph.detached && g.place.AtListener? && g.toCdn
    case DeletePreviousTask(p) => ph.stage.Synced? && ph.detached && !ph.cleaned && p == PartitionAt(g.place)
    case _ => true
  }

  /** The rest of a pipeline respects the phase order to its end. */
  predicate Safe(ph: Phase, todo: Pipeline, g: Plan, all: bool)
    decreases todo
  {
    match todo
    case Finished => ph.stage.Synced? && ph.detached && (ph.cleaned || g.reuse)
    case Then(t, rest) => Allowed(ph, t, g, all) && Safe(Next(ph, t), rest, g, all)
  }

  // ---- the invariant ----

  function PlaceNow(s: State): Option<Place> {
    if s.distribution.Some? then Some(AtDistribution(s.distribution.value))
    else if s.listener.Some? then Some(AtListener(s.listener.value))
    else None
  }

  /** Ids not yet handed out are unused. */
  ghost predicate Fresh(s: State) {
    && (forall id :: id in s.certificates ==> id < s.nextId)
    && (forall a :: a in s.iam && a.Own? ==> a.certificate < s.nextId)
    && (forall d :: d in s.served ==> d < s.nextId)
    && (forall c :: c in s.insync ==> c < s.nextChange)
    && (forall c :: c in s.changeIds ==> c < s.nextChange)
  }

  /** Every certificate of the instance in IAM belongs to a row that says so. */
  ghost predicate NoLeak(s: State) {
    forall a :: a in s.iam && a.Own? ==>
      a.certificate in s.certificates && s.certificates[a.certificate].arn == Some(a)
  }

  predicate HasArn(s: State, id: nat, p: Partition) {
    && id in s.certificates
    && s.certificates[id].leaf
    && s.certificates[id].arn == Some(Own(p, id))
  }

  predicate Covers(s: State, id: nat, domains: seq<string>)
    requires id in s.certificates
  {
    forall d :: d in domains ==> d in s.certificates[id].names
  }

  /** Exactly these certificates of the instance are attached to listeners. */
  ghost predicate Attachments(s: State, spots: set<(Listener, Arn)>) {
    && (forall l, a :: l in s.attached && a in s.attached[l] && a.Own? ==> (l, a) in spots)
    && (forall l, a :: (l, a) in spots ==> l in s.attached && a in s.attached[l])
  }

  function Spot(p: Place, arn: Arn): set<(Listener, Arn)> {
    if p.AtListener? then {(p.listener, arn)} else {}
  }

  function ServedAt(p: Place, arn: Arn): map<nat, Arn> {
    if p.AtDistribution? then map[p.id := arn] else map[]
  }

  ghost predicate PointAt(s: State, domains: set<string>, targets: set<Target>) {
    forall d :: d in domains ==> d in s.alias && Visible(s.alias[d], s.insync) <= targets
  }

  function Domains(s: State): set<string> {
    set d | d in s.domains
  }

  ghost predicate Before(s: State, stage: Stage, g: Plan) {
    && s.current == Some(g.outgoing)
    && HasArn(s, g.outgoing, PartitionAt(g.place)) && Own(PartitionAt(g.place), g.outgoing) in s.iam
    && (forall d :: d in g.kept ==> d in s.certificates[g.outgoing].names)
    && (match s.pending
        case None => s.certificates.Keys == {g.outgoing} && !g.reuse
        case Some(c) =>
          && s.certificates.Keys == {g.outgoing, c}
          && (c == g.outgoing <==> g.reuse)
          && Covers(s, c, s.domains)
          && (s.certificates[c].arn.Some? ==>
                HasArn(s, c, if g.toCdn then Commercial else GovCloud)))
    && Attachments(s, Spot(g.place, Own(PartitionAt(g.place), g.outgoing)))
    && s.served == ServedAt(g.place, Own(PartitionAt(g.place), g.outgoing))
    && (s.albCertificate.Some? ==> s.albCertificate == s.current && g.place.AtListener? && g.toCdn)
    && (match g.place
        case AtDistribution(id) =>
          s.distribution == Some(id) && stage.Issuing? && g.toCdn && s.internal == Some(Distribution(id))
        case AtListener(l) =>
          && s.distribution.None?
          && s.listener.Some?
          && (g.reuse ==> l !in s.dedicated && !g.toCdn)
          && (if stage.Issuing? then s.listener == Some(l) && (s.previous.Some? ==> s.previous == Some(l))
              else s.previous == Some(l) && !g.toCdn && (g.reuse ==> s.listener != Some(l))))
    && PointAt(s, g.kept, {TargetAt(g.place)})
  }

  ghost predicate After(s: State, ph: Phase, g: Plan) {
    var p := PlaceNow(s);
    && s.pending.None?
    && s.current.Some? && p.Some? && p.value.AtDistribution? == g.toCdn
    && (s.current == Some(g.outgoing) <==> g.reuse)
    && s.internal == Some(TargetAt(p.value))
    && var c := s.current.value;
    var arn := Own(PartitionAt(p.value), c);
    var oldArn := Own(PartitionAt(g.place), g.outgoing);
    && HasArn(s, c, PartitionAt(p.value)) && arn in s.iam
    && Covers(s, c, s.domains)
    && s.certificates.Keys == (if ph.cleaned then {c} else {g.outgoing, c})
    && (ph.cleaned ==> ph.detached && ph.stage.Synced?)
    && (ph.detached && g.place.AtListener? ==> ph.stage.Synced?)
    && (!ph.cleaned ==>
          && HasArn(s, g.outgoing, PartitionAt(g.place))
          && forall d :: d in g.kept ==> d in s.certificates[g.outgoing].names)
    && (!ph.detached ==> oldArn in s.iam)
    && Attachments(s, (if ph.detached then {} else Spot(g.place, oldArn)) + Spot(p.value, arn))
    && s.served == ServedAt(p.value, arn)
    && (match g.place
        case AtDistribution(id) => s.distribution == Some(id) && ph.detached
        case AtListener(l) =>
          && (!ph.detached ==> if g.toCdn then s.listener == Some(l) else s.previous == Some(l))
          && (ph.detached ==> s.previous.None?)
          && (g.reuse ==> s.listener != Some(l) && !g.toCdn))
    && (s.albCertificate.Some? ==> !ph.detached && s.albCertificate == Some(g.outgoing) && g.toCdn)
    && match ph.stage
       case Synced => PointAt(s, Domains(s), {s.internal.value})
       case _ =>
         && PointAt(s, g.kept, {TargetAt(g.place), s.internal.value})
         && (ph.stage.Aliased? ==> Pointed(s, Domains(s)))
  }

  /** Every domain's record was set to the new target by a change that the
      instance still waits for, or has waited for. */
  ghost predicate Pointed(s: State, domains: set<string>)
  {
    forall d :: d in domains ==>
      && d in s.alias
      && Some(s.alias[d].target) == s.internal
      && (s.alias[d].change in s.insync || s.alias[d].change in s.changeIds)
  }

  ghost predicate InRotation(s: State, ph: Phase, g: Plan) {
    && Fresh(s)
    && NoLeak(s)
    && g.kept <= g.domains == Domains(s)
    && if HasPromoted(ph) then After(s, ph, g) else !ph.detached && !ph.cleaned && Before(s, ph.stage, g)
  }

  // ---- each task keeps the invariant ----

  /** The outcome of a task at a phase: the next phase when it finished, the same
      one when it failed and will be retried. */
  ghost predicate Keeps(o: Outcome, ph: Phase, t: Task, g: Plan) {
    InRotation(o.state, if o.ok then Next(ph, t) else ph, g)
  }

  lemma UserKeeps(s: State, ph: Phase, g: Plan, budget: nat)
    requires InRotation(s, ph, g) && ph.stage.Issuing?
    ensures Keeps(CreateUser(s, budget), ph, CreateUserTask, g)
  {
    hide InRotation;
    var s' := CreateUser(s, budget).state;
    if s' != s { AccountKeeps(s, s', ph, g); }
  }

  lemma AccountKeeps(s: State, s': State, ph: Phase, g: Plan)
    requires InRotation(s, ph, g) && ph.stage.Issuing?
    requires s' == s.(user := s'.user, nextId := s.nextId + 1)
    ensures InRotation(s', ph, g)
  {
    assert Domains(s') == Domains(s);
    assert Before(s', Issuing, g);
  }

  lemma StoreKeeps(s: State, ph: Phase, g: Plan)
    requires InRotation(s, ph, g) && Allowed(ph, StoreAlbCertificateTask, g, false)
    ensures Keeps(StoreAlbCertificate(s), ph, StoreAlbCertificateTask, g)
  {
    assert Before(StoreAlbCertificate(s).state, Issuing, g);
  }

  lemma KeyKeeps(s: State, ph: Phase, g: Plan, budget: nat)
    requires InRotation(s, ph, g) && Allowed(ph, GenerateKeyTask, g, false)
    ensures Keeps(GenerateKey(s, budget), ph, GenerateKeyTask, g)
  {
    var s' := GenerateKey(s, budget).state;
    if s.pending.None? && budget > 0 {
      assert s'.certificates.Keys == {g.outgoing, s.nextId};
    }
  }

  /** Filling in a row without touching its names or ARN changes nothing that
      the invariant talks about. */
  lemma RowKeeps(s: State, s': State, ph: Phase, g: Plan, id: nat, row: Certificate)
    requires InRotation(s, ph, g) && ph.stage.Issuing?
    requires id in s.certificates && row.names == s.certificates[id].names && row.arn == s.certificates[id].arn
    requires s.certificates[id].leaf ==> row.leaf
    requires s.nextId <= s'.nextId
    requires s' == s.(certificates := s.certificates[id := row], nextId := s'.nextId, answers := s'.answers)
    ensures InRotation(s', ph, g)
  {
    assert s'.certificates.Keys == s.certificates.Keys;
    assert Fresh(s');
    assert NoLeak(s');
    assert HasArn(s', g.outgoing, PartitionAt(g.place));
    assert Before(s', ph.stage, g);
  }

  lemma ChallengesKeep(s: State, ph: Phase, g: Plan, budget: nat)
    requires InRotation(s, ph, g) && Allowed(ph, InitiateChallengesTask, g, false)
    ensures Keeps(InitiateChallenges(s, budget), ph, InitiateChallengesTask, g)
  {
    var s' := InitiateChallenges(s, budget).state;
    if s' != s {
      RowKeeps(s, s', ph, g, s.pending.value, s'.certificates[s.pending.value]);
    }
  }

  lemma {:induction false} TxtKeeps(s: State, ph: Phase, g: Plan, todo: seq<Challenge>, budget: nat)
    requires InRotation(s, ph, g) && ph.stage.Issuing?
    ensures InRotation(UpsertTxts(s, todo, budget).state, ph, g)
    decreases |todo|
  {
    if todo != [] {
      if todo[0].answered {
        TxtKeeps(s, ph, g, todo[1..], budget);
      } else if budget > 0 {
        TxtKeeps(UpsertTxt(s, todo[0]), ph, g, todo[1..], budget - 1);
      }
    }
  }

  lemma AnswerOneKeeps(s: State, ph: Phase, g: Plan, id: nat, i: nat)
    requires InRotation(s, ph, g) && ph.stage.Issuing?
    requires id in s.certificates && i < |s.certificates[id].challenges|
    ensures InRotation(AnswerOne(s, id, i), ph, g)
  {
    hide InRotation;
    var s' := AnswerOne(s, id, i);
    RowKeeps(s, s', ph, g, id, s'.certificates[id]);
  }

  lemma {:induction false} AnswersKeep(s: State, ph: Phase, g: Plan, id: nat, i: nat, budget: nat)
    requires InRotation(s, ph, g) && ph.stage.Issuing?
    requires id in s.certificates && i <= |s.certificates[id].challenges|
    ensures InRotation(AnswerFrom(s, id, i, budget).state, ph, g)
    decreases |s.certificates[id].challenges| - i
  {
    hide InRotation;
    var challenges := s.certificates[id].challenges;
    if i < |challenges| {
      if challenges[i].answered {
        AnswersKeep(s, ph, g, id, i + 1, budget);
      } else if budget > 0 {
        AnswerOneKeeps(s, ph, g, id, i);
        AnswersKeep(AnswerOne(s, id, i), ph, g, id, i + 1, budget - 1);
      }
    }
  }

  lemma RetrieveKeeps(s: State, ph: Phase, g: Plan, budget: nat)
    requires InRotation(s, ph, g) && ph.stage.Issuing?
    ensures Keeps(RetrieveCertificate(s, budget), ph, RetrieveCertificateTask, g)
  {
    var s' := RetrieveCertificate(s, budget).state;
    if s' != s {
      RowKeeps(s, s', ph, g, s.pending.value, s'.certificates[s.pending.value]);
    }
  }

  lemma RejectKeeps(s: State, ph: Phase, g: Plan)
    requires InRotation(s, ph, g) && ph.stage.Issuing?
    ensures InRotation(RejectOrder(s), ph, g)
  {
    var r := RejectOrder(s);
    if r != s {
      assert r.certificates.Keys == {g.outgoing};
      assert NoLeak(r);
    }
  }

  /** An upload hands out no id, and what it puts into IAM has its row. */
  lemma UploadIsTracked(s: State, p: Partition, budget: nat)
    requires Fresh(s) && NoLeak(s)
    ensures var s' := UploadServerCertificate(s, p, budget).state;
            Fresh(s') && NoLeak(s') && Domains(s') == Domains(s)
  {
  }

  lemma UploadIsBefore(s: State, g: Plan, p: Partition, budget: nat)
    requires Before(s, Issuing, g) && p == (if g.toCdn then Commercial else GovCloud)
    ensures Before(UploadServerCertificate(s, p, budget).state, Issuing, g)
  {
    assert UploadServerCertificate(s, p, budget).state.certificates.Keys == s.certificates.Keys;
  }

  lemma UploadKeeps(s: State, ph: Phase, g: Plan, p: Partition, budget: nat)
    requires InRotation(s, ph, g) && Allowed(ph, UploadTask(p), g, false)
    ensures Keeps(UploadServerCertificate(s, p, budget), ph, UploadTask(p), g)
  {
    hide Fresh, NoLeak, Before, UploadServerCertificate;
    UploadIsTracked(s, p, budget);
    UploadIsBefore(s, g, p, budget);
  }

  lemma {:induction false} OldRecordsKeep(s: State, ph: Phase, g: Plan, todo: seq<Challenge>)
    requires InRotation(s, ph, g) && ph.stage.Issuing?
    ensures InRotation(DeleteOlds(s, todo), ph, g)
    decreases |todo|
  {
    if todo != [] {
      if todo[0].domain in s.domains {
        OldRecordsKeep(s, ph, g, todo[1..]);
      } else {
        var s' := DeleteOldRecords(s, todo[0]);
        assert Domains(s') == Domains(s);
        OldRecordsKeep(s', ph, g, todo[1..]);
      }
    }
  }

  /** Waiting for a change only narrows what resolvers may be told. */
  lemma WaitOneNarrows(s: State)
    requires Fresh(s) && s.changeIds != []
    ensures Fresh(WaitOne(s))
    ensures forall c :: c in s.changeIds || c in s.insync ==> c in WaitOne(s).changeIds || c in WaitOne(s).insync
    ensures forall d :: d in s.alias ==> Visible(s.alias[d], WaitOne(s).insync) <= Visible(s.alias[d], s.insync)
  {
    var s' := WaitOne(s);
    assert s.changeIds[0] in s.changeIds;
    assert forall c :: c in s'.changeIds ==> c in s.changeIds;
    assert forall c :: c in s.changeIds ==> c == s.changeIds[0] || c in s'.changeIds;
  }

  lemma WaitOneKeeps(s: State, ph: Phase, g: Plan)
    requires InRotation(s, ph, g) && s.changeIds != []
    ensures InRotation(WaitOne(s), ph, g)
  {
    var s' := WaitOne(s);
    WaitOneNarrows(s);
    assert Domains(s') == Domains(s);
    hide Visible, Fresh;
    if HasPromoted(ph) {
      assert After(s', ph, g);
    } else {
      assert Before(s', ph.stage, g);
    }
  }

  /** Nothing is left to wait for, so every record set for a domain is in sync. */
  lemma AllInSync(s: State, ph: Phase, g: Plan)
    requires InRotation(s, ph, g) && ph.stage.Aliased? && s.changeIds == []
    ensures InRotation(s, ph.(stage := Synced), g)
  {
    assert PointAt(s, Domains(s), {s.internal.value});
  }

  lemma {:induction false} WaitKeeps(s: State, ph: Phase, g: Plan, budget: nat)
    requires InRotation(s, ph, g) && Allowed(ph, WaitForChangesTask, g, false)
    ensures Keeps(WaitForChanges(s, budget), ph, WaitForChangesTask, g)
    decreases |s.changeIds|
  {
    hide InRotation;
    if s.changeIds == [] {
      if ph.stage.Aliased? {
        AllInSync(s, ph, g);
      }
    } else if budget > 0 {
      WaitOneKeeps(s, ph, g);
      WaitKeeps(WaitOne(s), ph, g, budget - 1);
    }
  }

  lemma SelectKeeps(s: State, ph: Phase, g: Plan, listeners: seq<Listener>, budget: nat)
    requires InRotation(s, ph, g)
    requires ph.stage.Issuing? && g.place.AtListener? && !g.toCdn
    requires g.reuse ==> listeners == s.dedicated
    ensures var o := SelectFrom(s, listeners, false, budget);
            InRotation(o.state, if o.ok then ph.(stage := Selected) else ph, g)
  {
    var s' := SelectFrom(s, listeners, false, budget).state;
    if s' != s {
      assert Domains(s') == Domains(s);
      assert Before(s', Selected, g);
    }
  }

  lemma AddKeeps(s: State, ph: Phase, g: Plan, budget: nat)
    requires InRotation(s, ph, g) && Allowed(ph, AddCertificateToAlbTask, g, false)
    ensures Keeps(AddCertificateToAlb(s, budget), ph, AddCertificateToAlbTask, g)
  {
    var s' := AddCertificateToAlb(s, budget).state;
    if s' != s {
      assert s'.certificates == s.certificates;
    }
  }

  lemma CreateDistributionKeeps(s: State, ph: Phase, g: Plan, budget: nat)
    requires InRotation(s, ph, g) && Allowed(ph, CreateDistributionTask, g, false)
    ensures Keeps(CreateDistribution(s, budget), ph, CreateDistributionTask, g)
  {
    var s' := CreateDistribution(s, budget).state;
    if s' != s {
      assert s'.certificates == s.certificates;
    }
  }

  /** A distribution swaps its certificate in one step: the outgoing one is idle. */
  lemma UpdateDistributionKeeps(s: State, ph: Phase, g: Plan, budget: nat)
    requires InRotation(s, ph, g) && Allowed(ph, UpdateDistributionTask, g, false)
    ensures Keeps(UpdateDistribution(s, budget), ph, UpdateDistributionTask, g)
  {
    var s' := UpdateDistribution(s, budget).state;
    if s' != s {
      assert s'.certificates == s.certificates;
      assert Domains(s') == Domains(s);
      assert After(s', Phase(Promoted, true, false), g);
    }
  }

  lemma UpdateCertificateKeeps(s: State, ph: Phase, g: Plan, budget: nat)
    requires InRotation(s, ph, g) && Allowed(ph, UpdateCertificateTask, g, true) && g.domains <= g.kept
    ensures Keeps(UpdateDistribution(s, budget), ph, UpdateCertificateTask, g)
  {
    var s' := UpdateDistribution(s, budget).state;
    UpdateDistributionKeeps(s, ph, g, budget);
    if s' != s {
      assert Domains(s') == Domains(s);
      assert After(s', Phase(Synced, true, false), g);
    }
  }

  lemma UpsertAliasKeeps(s: State, ph: Phase, g: Plan, domain: string)
    requires ph.stage.Promoted? && InRotation(s, ph, g)
    ensures s.internal.Some? && InRotation(UpsertAlias(s, domain, s.internal.value), ph, g)
  {
    var s' := UpsertAlias(s, domain, s.internal.value);
    assert Domains(s') == Domains(s);
    assert s.nextChange !in s.insync;
    assert s'.changeIds[|s.changeIds|] == s.nextChange;
  }

  lemma UpsertAliasStays(s: State, domain: string, done: set<string>)
    requires s.internal.Some? && Pointed(s, done)
    ensures Pointed(UpsertAlias(s, domain, s.internal.value), done + {domain})
  {
    var s' := UpsertAlias(s, domain, s.internal.value);
    assert s'.changeIds[|s.changeIds|] == s.nextChange;
  }

  lemma {:induction false} AliasesKeep(s: State, ph: Phase, g: Plan, todo: seq<string>, budget: nat)
    requires ph.stage.Promoted? && InRotation(s, ph, g)
    ensures InRotation(UpsertAliases(s, todo, budget).state, ph, g)
    decreases |todo|
  {
    if todo != [] && budget > 0 && s.internal.Some? {
      UpsertAliasKeeps(s, ph, g, todo[0]);
      AliasesKeep(UpsertAlias(s, todo[0], s.internal.value), ph, g, todo[1..], budget - 1);
    }
  }

  /** After the loop over `todo` every domain done is pointed at the new target. */
  lemma {:induction false} AliasesPoint(s: State, todo: seq<string>, budget: nat, done: set<string>)
    requires Pointed(s, done)
    ensures var o := UpsertAliases(s, todo, budget);
            o.state.domains == s.domains && (o.ok ==> Pointed(o.state, done + set d | d in todo))
    decreases |todo|
  {
    if todo == [] {
      assert done + (set d | d in todo) == done;
    } else if budget > 0 && s.internal.Some? {
      UpsertAliasStays(s, todo[0], done);
      AliasesPoint(UpsertAlias(s, todo[0], s.internal.value), todo[1..], budget - 1, done + {todo[0]});
      assert done + {todo[0]} + (set d | d in todo[1..]) == done + set d | d in todo;
    }
  }

  /** A record that is set again may still be answered with whatever it was before, until
      the change is in sync. */
  lemma OldTargetsStayVisible(s: State, domain: string, target: Target)
    requires s.nextChange !in s.insync
    ensures var s' := UpsertAlias(s, domain, target);
            && domain in s'.alias && s'.alias[domain].target == target
            && Visible(s'.alias[domain], s'.insync)
               == {target} + (if domain in s.alias then Visible(s.alias[domain], s.insync) else {})
            && Visible(s'.alias[domain], s'.insync + {s.nextChange}) == {target}
            && s'.changeIds == s.changeIds + [s.nextChange]
  {
  }

  lemma CreateAliasKeeps(s: State, ph: Phase, g: Plan, budget: nat)
    requires InRotation(s, ph, g) && Allowed(ph, CreateAliasTask, g, false)
    ensures Keeps(CreateAliasRecords(s, budget), ph, CreateAliasTask, g)
  {
    AliasesKeep(s, ph, g, s.domains, budget);
    AliasesPoint(s, s.domains, budget, {});
    assert {} + (set d | d in s.domains) == Domains(s);
  }

  lemma OnlyOther(ids: set<nat>, id: nat)
    requires ids == {id}
    ensures Ascending(ids) == [id]
  {
    assert Least(ids) == id;
    assert ids - {id} == {};
  }

  /** Taking the outgoing certificate off its listener leaves the new one's spot. */
  lemma DetachKeeps(s: State, s': State, ph: Phase, g: Plan)
    requires InRotation(s, ph, g) && ph.stage.Synced? && !ph.detached && g.place.AtListener?
    requires g.place.listener in s.attached
    requires s' == Detach(s, g.place.listener, Own(GovCloud, g.outgoing)).(previous := None, albCertificate := None)
    ensures InRotation(s', ph.(detached := true), g)
  {
    var place := PlaceNow(s).value;
    var mine := Own(PartitionAt(place), s.current.value);
    var theirs := Own(GovCloud, g.outgoing);
    assert Domains(s') == Domains(s);
    assert PlaceNow(s') == Some(place);
    forall l, a | l in s'.attached && a in s'.attached[l] && a.Own?
      ensures (l, a) in {} + Spot(place, mine)
    {
      assert a in s.attached[l];
      assert (l, a) in Spot(g.place, theirs) + Spot(place, mine);
    }
    assert Attachments(s', {} + Spot(place, mine));
    assert After(s', ph.(detached := true), g);
  }

  lemma RemoveFromPreviousKeeps(s: State, ph: Phase, g: Plan, budget: nat)
    requires InRotation(s, ph, g) && Allowed(ph, RemoveFromPreviousAlbTask, g, false)
    ensures Keeps(RemoveCertificateFromPreviousAlb(s, budget), ph, RemoveFromPreviousAlbTask, g)
  {
    if g.reuse {
      NoneToRemove(s, ph, g, budget);
    } else {
      assert Others(s) == {g.outgoing};
      OnlyOther(Others(s), g.outgoing);
      var s' := RemoveCertificateFromPreviousAlb(s, budget).state;
      if s' != s {
        DetachKeeps(s, s', ph, g);
      }
    }
  }

  /** With the current certificate promoted again there is no other one to take off. */
  lemma NoneToRemove(s: State, ph: Phase, g: Plan, budget: nat)
    requires InRotation(s, ph, g) && g.reuse
    ensures RemoveCertificateFromPreviousAlb(s, budget) == Failed(s)
  {
    assert Others(s) == {};
  }

  lemma RemoveDuringMoveKeeps(s: State, ph: Phase, g: Plan, budget: nat)
    requires InRotation(s, ph, g)
    requires Allowed(ph, RemoveFromPreviousDuringUpdateToDedicatedTask, g, false)
    ensures Keeps(RemoveFromPreviousAlbDuringUpdateToDedicated(s, budget), ph,
                  RemoveFromPreviousDuringUpdateToDedicatedTask, g)
  {
    var s' := RemoveFromPreviousAlbDuringUpdateToDedicated(s, budget).state;
    assert Domains(s') == Domains(s);
  }

  lemma RemoveAlbCertificateKeeps(s: State, ph: Phase, g: Plan, budget: nat)
    requires InRotation(s, ph, g) && Allowed(ph, RemoveAlbCertificateDuringUpdateToCdnTask, g, false)
    ensures Keeps(RemoveAlbCertificateDuringUpdateToCdn(s, budget), ph, RemoveAlbCertificateDuringUpdateToCdnTask, g)
  {
    var s' := RemoveAlbCertificateDuringUpdateToCdn(s, budget).state;
    assert Domains(s') == Domains(s);
  }

  lemma DeleteOne(s: State, p: Partition, id: nat, budget: nat)
    requires Others(s) == {id} && s.certificates[id].arn.Some? && budget > 0 && !InUse(s, Own(p, id))
    ensures DeletePreviousCertificates(s, p, budget)
         == Done(s.(iam := s.iam - {Own(p, id)}, certificates := s.certificates - {id}))
  {
    OnlyOther(Others(s), id);
    var s1 := s.(iam := s.iam - {Own(p, id)});
    assert [id][1..] == [];
    assert DeleteFromIam(s1, p, [], budget - 1) == Done(s1);
    assert DeleteFromIam(s, p, [id], budget) == Done(s1);
  }

  /** Once detached, the outgoing certificate is on no listener and no distribution. */
  lemma OutgoingIsIdle(s: State, ph: Phase, g: Plan)
    requires InRotation(s, ph, g) && HasPromoted(ph) && ph.detached && !g.reuse
    ensures !InUse(s, Own(PartitionAt(g.place), g.outgoing))
  {
    var arn := Own(PartitionAt(g.place), g.outgoing);
    var place := PlaceNow(s).value;
    var mine := Own(PartitionAt(place), s.current.value);
    assert Attachments(s, Spot(place, mine)) by {
      assert {} + Spot(place, mine) == Spot(place, mine);
    }
    assert arn != mine;
    forall l | l in s.attached ensures arn !in s.attached[l] {
      assert (l, arn) !in Spot(place, mine);
    }
    forall d | d in s.served ensures arn != s.served[d] {
      assert s.served == ServedAt(place, mine);
    }
  }

  /** Dropping the idle outgoing certificate leaves the new one alone. */
  lemma DropKeeps(s: State, s': State, ph: Phase, g: Plan)
    requires InRotation(s, ph, g) && ph.stage.Synced? && ph.detached && !ph.cleaned && !g.reuse
    requires s' == s.(iam := s.iam - {Own(PartitionAt(g.place), g.outgoing)},
                      certificates := s.certificates - {g.outgoing})
    ensures InRotation(s', ph.(cleaned := true), g)
  {
    var place := PlaceNow(s).value;
    assert Domains(s') == Domains(s);
    assert PlaceNow(s') == Some(place);
    assert s'.certificates.Keys == {s.current.value};
    assert HasArn(s', s.current.value, PartitionAt(place));
    assert After(s', ph.(cleaned := true), g);
    assert NoLeak(s');
  }

  /** With nothing to delete, the task only moves the phase on. */
  lemma NothingToDrop(s: State, ph: Phase, g: Plan)
    requires InRotation(s, ph, g) && ph.stage.Synced? && ph.detached && !ph.cleaned && g.reuse
    ensures InRotation(s, ph.(cleaned := true), g)
  {
    assert After(s, ph.(cleaned := true), g);
  }

  /** The certificate to delete is no longer in use, so IAM never refuses. */
  lemma DeleteKeeps(s: State, ph: Phase, g: Plan, p: Partition, budget: nat)
    requires InRotation(s, ph, g) && Allowed(ph, DeletePreviousTask(p), g, false)
    ensures Keeps(DeletePreviousCertificates(s, p, budget), ph, DeletePreviousTask(p), g)
    ensures forall id :: id in Others(s) ==> !InUse(s, Own(p, id))
    ensures budget > 0 ==> DeletePreviousCertificates(s, p, budget).ok
  {
    if g.reuse {
      assert Others(s) == {};
      assert s.certificates - {} == s.certificates;
      assert DeletePreviousCertificates(s, p, budget) == Done(s);
      NothingToDrop(s, ph, g);
    } else {
      assert Others(s) == {g.outgoing};
      OutgoingIsIdle(s, ph, g);
      if budget > 0 {
        DeleteOne(s, p, g.outgoing, budget);
        DropKeeps(s, DeletePreviousCertificates(s, p, budget).state, ph, g);
      } else {
        OnlyOther(Others(s), g.outgoing);
      }
    }
  }
}
