/**
  What follows a refused move between distributions. It has committed the row before it
  was refused: with new domains, or with the current certificate as the new one. The
  next pipeline then finds a certificate that was issued, uploaded and answered for, and
  promotes it once more: a renewal renews nothing, and an update serves its domains only
  if the old certificate names them.
 */
module Leftovers {
  import opened Wrappers
  import opened Records
  import opened Tasks
  import opened Pipelines
  import opened Frames
  import opened Rotation
  import opened PhaseOrder
  import opened RotationRuns
  import opened UnchangedUpdate
  import opened Provisioning
  import Lifecycle
  import RotationProgress

  // ---- what the next request starts from ----

  /** The current certificate is to be used again, for these domains. */
  function Leftover(s: State, domains: seq<string>): State {
    s.(domains := domains, pending := s.current)
  }

  /** The refused move has committed what the request assigns to the row. */
  function Refused(s: State, domains: seq<string>): State {
    Request(s, CdnToCdnWaf, domains)
  }

  /** The pipeline that comes next uses the certificate again exactly if the refused move
      kept the domains, or it is an update that keeps those of the refused move. */
  lemma NextUsesItAgain(s: State, refused: seq<string>, kind: Kind, domains: seq<string>)
    requires Steady(s) && FromDistribution(kind)
    ensures var s1 := Refused(s, refused);
            var s2 := Request(s1, kind, domains);
            s2 == Leftover(s, s2.domains)
            <==> !Applies(s, CdnToCdnWaf, refused) || (!Renewal(kind) && !Applies(s1, kind, domains))
  {
  }

  // ---- the invariant ----

  /** Issued, uploaded, and with every challenge answered. */
  predicate Issued(s: State, c: nat) {
    && c in s.certificates
    && s.certificates[c].order.Some? && s.certificates[c].leaf
    && s.certificates[c].arn == Some(Own(Commercial, c)) && Own(Commercial, c) in s.iam
    && AllAnswered(s.certificates[c].challenges)
  }

  /** One certificate, in use at the distribution, pending until it is promoted again. */
  predicate Frozen(s: State, c: nat, id: nat, ph: Phase) {
    && Issued(s, c) && s.certificates.Keys == {c} && s.current == Some(c)
    && s.distribution == Some(id) && s.served == map[id := Own(Commercial, c)]
    && s.pending == (if HasPromoted(ph) then None else Some(c))
    && !ph.stage.Selected?
  }

  /** Nothing about certificates, orders or answers differs. */
  predicate Same(s: State, s': State) {
    && s'.certificates == s.certificates && s'.current == s.current && s'.iam == s.iam
    && s'.served == s.served && s'.answers == s.answers && s'.distribution == s.distribution
    && s'.domains == s.domains
  }

  ghost predicate StaysFrozen(o: Outcome, s: State, t: Task, c: nat, id: nat, ph: Phase) {
    Same(s, o.state) && Frozen(o.state, c, id, if o.ok then Next(ph, t) else ph)
  }

  // ---- the tasks ----

  predicate IssuingTask(t: Task) {
    || t.GenerateKeyTask? || t.InitiateChallengesTask? || t.CreateTxtTask?
    || t.AnswerChallengesTask? || t.RetrieveCertificateTask? || (t.UploadTask? && t.partition.Commercial?)
  }

  lemma IssuingIsDone(t: Task, s: State, c: nat, id: nat, ph: Phase, budget: nat)
    requires Frozen(s, c, id, ph) && !HasPromoted(ph) && IssuingTask(t)
    ensures Execute(t, false, s, budget) == Done(s)
  {
    match t {
      case CreateTxtTask => NothingToWrite(s, s.certificates[c].challenges, budget);
      case AnswerChallengesTask => NothingToAnswer(s, c, 0, budget);
      case _ =>
    }
  }

  lemma PromotionIsFrozen(t: Task, s: State, c: nat, id: nat, ph: Phase, budget: nat)
    requires Frozen(s, c, id, ph) && ph.stage.Issuing? && (t.UpdateDistributionTask? || t.UpdateCertificateTask?)
    ensures StaysFrozen(UpdateDistribution(s, budget), s, t, c, id, ph)
  {
    var o := UpdateDistribution(s, budget);
    if o.ok { assert o.state.served == s.served; }
  }

  lemma NothingToDelete(s: State, c: nat, id: nat, ph: Phase, p: Partition, budget: nat)
    requires Frozen(s, c, id, ph)
    ensures DeletePreviousCertificates(s, p, budget) == Done(s)
  {
    assert Others(s) == {};
    assert s.certificates - {} == s.certificates;
  }

  predicate DnsTask(t: Task) {
    t.RemoveOldDnsTask? || t.WaitForChangesTask? || t.CreateAliasTask?
  }

  lemma DnsIsFrozen(t: Task, s: State, c: nat, id: nat, ph: Phase, budget: nat)
    requires Frozen(s, c, id, ph) && DnsTask(t) && (t.CreateAliasTask? ==> HasPromoted(ph))
    ensures StaysFrozen(Execute(t, false, s, budget), s, t, c, id, ph)
  {
    match t {
      case RemoveOldDnsTask => RemovalFrame(s, s.certificates[c].challenges);
      case WaitForChangesTask => WaitFrame(s, budget);
      case CreateAliasTask => AliasFrame(s, s.domains, budget);
    }
  }

  lemma OtherIsFrozen(t: Task, s: State, c: nat, id: nat, ph: Phase, g: Plan, all: bool, budget: nat)
    requires Frozen(s, c, id, ph) && Allowed(ph, t, g, all) && g.place.AtDistribution?
    requires !IssuingTask(t) && !DnsTask(t) && !t.UploadTask? && !t.DeletePreviousTask?
    requires !t.UpdateDistributionTask? && !t.UpdateCertificateTask?
    ensures StaysFrozen(Execute(t, false, s, budget), s, t, c, id, ph)
  {
    hide AllAnswered, Usable;
  }

  lemma TaskIsFrozen(t: Task, s: State, c: nat, id: nat, ph: Phase, g: Plan, all: bool, budget: nat)
    requires Frozen(s, c, id, ph) && Allowed(ph, t, g, all) && g.place.AtDistribution? && g.toCdn
    ensures StaysFrozen(Execute(t, false, s, budget), s, t, c, id, ph)
  {
    hide Frozen, Execute;
    if IssuingTask(t) {
      IssuingIsDone(t, s, c, id, ph, budget);
    } else if t.UpdateDistributionTask? || t.UpdateCertificateTask? {
      PromotionIsFrozen(t, s, c, id, ph, budget);
      assert Execute(t, false, s, budget) == UpdateDistribution(s, budget) by { Updating(t, s, budget); }
    } else if DnsTask(t) {
      DnsIsFrozen(t, s, c, id, ph, budget);
    } else if t.DeletePreviousTask? {
      NothingToDelete(s, c, id, ph, t.partition, budget);
      assert Execute(t, false, s, budget) == Done(s) by { Deleting(t, s, budget); }
      Cleaning(s, c, id, ph, t);
    } else {
      OtherIsFrozen(t, s, c, id, ph, g, all, budget);
    }
  }

  lemma Updating(t: Task, s: State, budget: nat)
    requires t.UpdateDistributionTask? || t.UpdateCertificateTask?
    ensures Execute(t, false, s, budget) == UpdateDistribution(s, budget)
  {
    hide UpdateDistribution;
  }

  lemma Deleting(t: Task, s: State, budget: nat)
    requires t.DeletePreviousTask?
    ensures Execute(t, false, s, budget) == DeletePreviousCertificates(s, t.partition, budget)
  {
    hide DeletePreviousCertificates;
  }

  lemma Cleaning(s: State, c: nat, id: nat, ph: Phase, t: Task)
    requires Frozen(s, c, id, ph) && t.DeletePreviousTask?
    ensures Frozen(s, c, id, Next(ph, t)) && Same(s, s)
  {
  }

  // ---- runs ----

  ghost predicate FrozenRun(s0: State, r: Run, c: nat, id: nat, ph: Phase, g: Plan, all: bool) {
    && Same(s0, r.state) && Frozen(r.state, c, id, ph)
    && Safe(ph, r.todo, g, all) && Safe(START, TasksOf(RestartKind(r.kind)), g, all)
    && g.place.AtDistribution? && g.toCdn && g.reuse
    && !Provisions(r.kind)
  }

  lemma RejectionChangesNothing(s: State, c: nat, id: nat, ph: Phase)
    requires Frozen(s, c, id, ph)
    ensures RejectOrder(s) == s
  {
  }

  lemma StartsAgain(s: State, c: nat, id: nat, ph: Phase)
    requires Frozen(s, c, id, ph) && s.pending.Some?
    ensures Frozen(s, c, id, START)
  {
  }

  lemma ChurnIsFrozen(s: State, c: nat, id: nat, ph: Phase, e: Event)
    requires Frozen(s, c, id, ph) && e.Churn?
    ensures var s' := ChurnListener(s, e.listener, e.foreign, e.open); Same(s, s') && Frozen(s', c, id, ph)
  {
  }

  lemma StepIsFrozen(s0: State, r: Run, c: nat, id: nat, ph: Phase, g: Plan, all: bool, e: Event)
    returns (ph': Phase)
    requires FrozenRun(s0, r, c, id, ph, g, all) && Admissible(r, g, e)
    ensures FrozenRun(s0, Step(r, e), c, id, ph', g, all)
  {
    hide Frozen, Execute, TasksOf, RejectOrder, ChurnListener;
    ph' := ph;
    match e {
      case Try(budget) =>
        if r.todo.Then? {
          TaskIsFrozen(r.todo.task, r.state, c, id, ph, g, all, budget);
          if Execute(r.todo.task, false, r.state, budget).ok { ph' := Next(ph, r.todo.task); }
        }
      case Reject => RejectionChangesNothing(r.state, c, id, ph);
      case Restart =>
        if r.todo.Then? && !r.kind.DedicatedToCdnWaf? {
          StartsAgain(r.state, c, id, ph);
          ph' := START;
        }
      case Churn(_, _, _) => ChurnIsFrozen(r.state, c, id, ph, e);
    }
  }

  lemma {:induction false} RunIsFrozen(s0: State, r: Run, c: nat, id: nat, ph: Phase, g: Plan, all: bool,
                                       events: seq<Event>)
    returns (ph': Phase)
    requires FrozenRun(s0, r, c, id, ph, g, all) && AdmissibleRun(r, g, events)
    ensures FrozenRun(s0, Steps(r, events), c, id, ph', g, all)
    decreases |events|
  {
    hide FrozenRun, Step, Admissible;
    ph' := ph;
    if events != [] {
      var ph1 := StepIsFrozen(s0, r, c, id, ph, g, all, events[0]);
      ph' := RunIsFrozen(s0, Step(r, events[0]), c, id, ph1, g, all, events[1..]);
    }
  }

  // ---- main results ----

  /** A steady instance at a distribution with a certificate that was issued in full. */
  ghost predicate Reusable(s: State) {
    Steady(s) && PlaceNow(s).value.AtDistribution? && Issued(s, s.current.value)
  }

  function PlanAgain(s: State, domains: seq<string>): Plan
    requires Located(s)
  {
    var s1 := Leftover(s, domains);
    Plan(s.current.value, PlaceNow(s).value, Domains(s1), Domains(s1) * Domains(s), true, true)
  }

  lemma StartsFrozen(s: State, kind: Kind, domains: seq<string>)
    requires Reusable(s) && FromDistribution(kind)
    ensures var s1 := Leftover(s, domains);
            FrozenRun(s1, Begin(s1, kind), s.current.value, s.distribution.value, START,
                      PlanAgain(s, domains), Renewal(kind))
  {
    hide TasksOf, Safe;
    var g := PlanAgain(s, domains);
    PipelineIsSafe(kind, g);
    RestartIsSafe(kind, g);
  }

  /** No certificate but this one, so a domain that it does not name is not served. */
  lemma OnlyItsNamesAreServed(s: State, c: nat, domains: set<string>)
    requires s.certificates.Keys == {c} && NoOutage(s, domains)
    ensures forall d :: d in domains ==> d in s.certificates[c].names
  {
    forall d | d in domains ensures d in s.certificates[c].names {
      assert s.alias[d].target in Visible(s.alias[d], s.insync);
      assert Reaches(s, s.alias[d].target, d);
    }
  }

  /** If it names them all, this is a rotation like any other. */
  lemma NamedAreServed(s: State, kind: Kind, domains: seq<string>, events: seq<Event>)
    requires Reusable(s) && FromDistribution(kind) && (Renewal(kind) ==> domains == s.domains)
    requires Covers(s, s.current.value, domains)
    requires AdmissibleRun(Begin(Leftover(s, domains), kind), PlanAgain(s, domains), events)
    ensures var r := Steps(Begin(Leftover(s, domains), kind), events);
            r.todo.Finished? ==> Steady(r.state) && NoOutage(r.state, Domains(r.state))
  {
    var g := PlanAgain(s, domains);
    hide Running, Steady, NoOutage, Steps, Step, AdmissibleRun, Issued;
    StartsRunning(s, kind, domains);
    var ph := RunKeeps(Begin(Leftover(s, domains), kind), START, g, Renewal(kind), events);
    SafeNow(Steps(Begin(Leftover(s, domains), kind), events), ph, g, Renewal(kind));
  }

  lemma StartsRunning(s: State, kind: Kind, domains: seq<string>)
    requires Reusable(s) && FromDistribution(kind) && (Renewal(kind) ==> domains == s.domains)
    requires Covers(s, s.current.value, domains)
    ensures Running(Begin(Leftover(s, domains), kind), START, PlanAgain(s, domains), Renewal(kind))
  {
    hide TasksOf, Safe, InRotation;
    var g := PlanAgain(s, domains);
    StartBefore(s, Leftover(s, domains), g);
    PipelineIsSafe(kind, g);
    RestartIsSafe(kind, g);
  }

  /**
    The certificate stays. Start any pipeline of a distribution where the current
    certificate is to be used again, and let anything admissible happen: no certificate,
    order, upload or answer is added, and the one certificate is current throughout.
    When the pipeline finishes, all domains are served exactly if that certificate names
    them all.
   */
  lemma TheCertificateStays(s: State, kind: Kind, domains: seq<string>, events: seq<Event>)
    requires Reusable(s) && FromDistribution(kind) && (Renewal(kind) ==> domains == s.domains)
    requires AdmissibleRun(Begin(Leftover(s, domains), kind), PlanAgain(s, domains), events)
    ensures var r := Steps(Begin(Leftover(s, domains), kind), events);
            && Same(Leftover(s, domains), r.state)
            && (r.todo.Finished? ==>
                  && r.state.pending.None?
                  && (NoOutage(r.state, Domains(r.state)) <==> Covers(s, s.current.value, domains)))
  {
    var g := PlanAgain(s, domains);
    hide Steady, Steps, Step, AdmissibleRun, NoOutage;
    var r0 := Begin(Leftover(s, domains), kind);
    StartsFrozen(s, kind, domains);
    var ph := RunIsFrozen(r0.state, r0, s.current.value, s.distribution.value, START, g, Renewal(kind), events);
    var r := Steps(r0, events);
    if r.todo.Finished? {
      AtTheEnd(r0.state, r, s.current.value, s.distribution.value, ph, g, Renewal(kind));
      if Covers(s, s.current.value, domains) {
        NamedAreServed(s, kind, domains, events);
      } else if NoOutage(r.state, Domains(r.state)) {
        OnlyItsNamesAreServed(r.state, s.current.value, Domains(r.state));
      }
    }
  }

  lemma AtTheEnd(s0: State, r: Run, c: nat, id: nat, ph: Phase, g: Plan, all: bool)
    requires FrozenRun(s0, r, c, id, ph, g, all) && r.todo.Finished?
    ensures r.state.pending.None? && r.state.certificates.Keys == {c}
  {
  }

  /** Such a renewal goes through, and the instance keeps the certificate that expires. */
  lemma ARenewalRenewsNothing(s: State) returns (events: seq<Event>)
    requires Reusable(s) && RotationProgress.Available(s)
    ensures var r := Steps(Begin(Leftover(s, s.domains), CdnRenewal), events);
            && r.todo.Finished? && Steady(r.state)
            && r.state.current == s.current && r.state.certificates == s.certificates && r.state.answers == s.answers
  {
    var g := PlanAgain(s, s.domains);
    hide Steady, Steps, Step, AdmissibleRun, NoOutage, RotationProgress.Going;
    assert Covers(s, s.current.value, s.domains) by { SteadyCovers(s); }
    GoesOn(s);
    var r0 := Begin(Leftover(s, s.domains), CdnRenewal);
    events := RotationProgress.Finishes(r0, START, g, true, RotationProgress.Ready(0, false));
    TheCertificateStays(s, CdnRenewal, s.domains, events);
    NamedAreServed(s, CdnRenewal, s.domains, events);
  }

  lemma SteadyCovers(s: State)
    requires Steady(s)
    ensures Covers(s, s.current.value, s.domains)
  {
  }

  lemma GoesOn(s: State)
    requires Reusable(s) && RotationProgress.Available(s)
    ensures RotationProgress.Going(Begin(Leftover(s, s.domains), CdnRenewal), START, PlanAgain(s, s.domains), true,
                                   RotationProgress.Ready(0, false))
  {
    var g := PlanAgain(s, s.domains);
    SteadyCovers(s);
    StartsRunning(s, CdnRenewal, s.domains);
    RotationProgress.PipelineIsPrepared(CdnRenewal, g);
    hide Running, TasksOf, RotationProgress.Prepared, RotationProgress.NoRemoval;
  }

  /** What a provisioning leaves was issued in full. */
  lemma ProvisionedIsReusable(s0: State, s: State)
    requires InUseNow(s0, s, CdnProvision, 13) && Steady(s)
    ensures Reusable(s)
  {
    var c := CertificateId(s0);
    assert s.certificates[c] == GoalRow(s0, CdnProvision);
    forall i | 0 <= i < |s.certificates[c].challenges| ensures s.certificates[c].challenges[i].answered {
      assert Challenges(s0, |s0.domains|)[i].answered;
    }
  }

  /** It happens: a new instance is provisioned, its move is refused, and it is renewed. */
  lemma ARenewalAfterARefusal() returns (s0: State, provisioning: seq<Event>, renewing: seq<Event>)
    ensures New(s0)
    ensures var provisioned := Steps(Begin(s0, CdnProvision), provisioning);
            && provisioned.todo.Finished? && Steady(provisioned.state)
            && var renewed := Steps(Begin(Refused(provisioned.state, []), CdnRenewal), renewing);
               && renewed.todo.Finished?
               && renewed.state.current == provisioned.state.current
               && renewed.state.certificates == provisioned.state.certificates
  {
    hide New, InUseNow, Steady, Steps, RotationProgress.Available;
    s0 := Lifecycle.ANewInstance(CdnProvision);
    provisioning := Lifecycle.ProvisioningFinishes(s0, CdnProvision, []);
    Lifecycle.AtBegin(Begin(s0, CdnProvision));
    var s := Steps(Begin(s0, CdnProvision), provisioning).state;
    Lifecycle.TopIsAvailable(s0, s, CdnProvision);
    ProvisionedIsReusable(s0, s);
    assert Refused(s, []) == Leftover(s, s.domains);
    renewing := ARenewalRenewsNothing(s);
  }
}
