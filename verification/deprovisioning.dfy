/**
  What a deprovision leaves behind. Its tasks only ever remove: whatever happens to a run,
  a finished one has removed what its tasks are for, and of an instance that was between
  operations nothing is left. An instance whose provisioning was canceled between the
  choice of a listener and the promotion cannot be deprovisioned at all.
 */
module Deprovisioning {
  import opened Wrappers
  import opened Records
  import opened Tasks
  import O = Operations
  import P = Pipelines
  import opened Rotation
  import RR = RotationRuns
  import PlanPlaces
  import DroppedDomains
  import Frames
  import Provisioning
  import Lifecycle
  import RotationProgress

  datatype Removal =
    | CancelOthers | RemoveAliases | RemoveTxts
    | RemoveCertificate
    | DeleteDdosAlarm | DeleteAlarms | Disassociate | DeleteChecks | Unsubscribe | DeleteTopic
    | Disable | WaitDisabled | DeleteDistribution | DeleteWebAcl
    | DeleteCertificates
    | Deprovision

  /** The chain of each plan. */
  function Removals(plan: O.Plan): seq<Removal> {
    match plan
    case Alb =>
      [CancelOthers, RemoveAliases, RemoveTxts, RemoveCertificate, DeleteCertificates, Deprovision]
    case DedicatedAlb =>
      [CancelOthers, RemoveAliases, RemoveTxts, RemoveCertificate, DeleteCertificates, Deprovision]
    case Cdn =>
      [CancelOthers, RemoveAliases, RemoveTxts, Disable, WaitDisabled, DeleteDistribution, DeleteCertificates,
       Deprovision]
    case CdnWaf =>
      [CancelOthers, RemoveAliases, RemoveTxts, DeleteDdosAlarm, DeleteAlarms, Disassociate, DeleteChecks,
       Unsubscribe, DeleteTopic, Disable, WaitDisabled, DeleteDistribution, DeleteWebAcl, DeleteCertificates,
       Deprovision]
  }

  /** Where the certificates of the plan are. */
  function PartitionOf(plan: O.Plan): Partition {
    if O.OnDistribution(plan) then Commercial else GovCloud
  }

  /** The instance and its surroundings, and whether its distribution is disabled. */
  datatype Rest = Rest(state: State, disabled: bool)

  datatype Result = Result(rest: Rest, ok: bool)

  // ---- the tasks ----

  function DeleteAlias(s: State, domain: string): State {
    if domain in s.alias && Some(s.alias[domain].target) == s.internal then s.(alias := s.alias - {domain}) else s
  }

  function DeleteAliases(s: State, todo: seq<string>): State
    decreases |todo|
  {
    if todo == [] then s else DeleteAliases(DeleteAlias(s, todo[0]), todo[1..])
  }

  function DeleteTxt(s: State, c: Challenge): State {
    if c.domain in s.txt && s.txt[c.domain].contents == c.contents then s.(txt := s.txt - {c.domain}) else s
  }

  function DeleteTxts(s: State, todo: seq<Challenge>): (s': State)
    ensures s' == s.(txt := s'.txt)
    decreases |todo|
  {
    if todo == [] then s else DeleteTxts(DeleteTxt(s, todo[0]), todo[1..])
  }

  function DeleteTxtsOf(s: State, ids: seq<nat>): State
    requires forall id :: id in ids ==> id in s.certificates
    decreases |ids|
  {
    if ids == [] then s else DeleteTxtsOf(DeleteTxts(s, s.certificates[ids[0]].challenges), ids[1..])
  }

  /** Without a listener there is nothing to do; with one, the certificate that serves is
      looked up first, and it is an error when there is none. */
  function TakeOff(r: Rest, budget: nat): Result {
    var s := r.state;
    if s.listener.None? then Result(r, true)
    else if s.current.None? || s.current.value !in s.certificates || s.certificates[s.current.value].arn.None?
            || s.listener.value !in s.attached || budget == 0 then Result(r, false)
    else Result(r.(state := Detach(s, s.listener.value, s.certificates[s.current.value].arn.value)), true)
  }

  /** Ask IAM to delete the certificate of a column, if it was uploaded. */
  function DeleteOne(s: State, partition: Partition, id: Option<nat>, budget: nat): Outcome {
    if id.None? || id.value !in s.certificates || s.certificates[id.value].arn.None? then Done(s)
    else if budget == 0 || (Own(partition, id.value) in s.iam && InUse(s, Own(partition, id.value))) then Failed(s)
    else Done(s.(iam := s.iam - {Own(partition, id.value)}))
  }

  function DeleteBoth(s: State, partition: Partition, budget: nat): Outcome {
    var o := DeleteOne(s, partition, s.pending, budget);
    if !o.ok then o else DeleteOne(o.state, partition, s.current, if budget == 0 then 0 else budget - 1)
  }

  /** A distribution that is not there any more is no error. */
  predicate Gone(s: State) {
    s.distribution.None? || s.distribution.value !in s.served
  }

  function Run(t: Removal, partition: Partition, r: Rest, budget: nat): Result {
    match t
    case RemoveAliases => Result(r.(state := DeleteAliases(r.state, r.state.domains)), true)
    case RemoveTxts => Result(r.(state := DeleteTxtsOf(r.state, Ascending(r.state.certificates.Keys))), true)
    case RemoveCertificate => TakeOff(r, budget)
    case Disable =>
      if Gone(r.state) then Result(r, true) else if budget == 0 then Result(r, false)
      else Result(r.(disabled := true), true)
    case WaitDisabled => Result(r, Gone(r.state) || (budget > 0 && r.disabled))
    case DeleteDistribution =>
      if Gone(r.state) then Result(r, true)
      else if budget == 0 || !r.disabled then Result(r, false)
      else Result(r.(state := r.state.(served := r.state.served - {r.state.distribution.value})), true)
    case DeleteCertificates =>
      var o := DeleteBoth(r.state, partition, budget);
      Result(r.(state := o.state), o.ok)
    case _ => Result(r, budget > 0)
  }

  /** The queue of an operation is this chain. */
  function StepOf(t: Removal): O.Step {
    match t
    case CancelOthers => O.Step(O.CancelOthers, true, O.RETRIES)
    case Deprovision => O.Step(O.Deactivate, true, O.RETRIES)
    case _ => O.Step(O.Work, !t.DeleteDistribution? && !t.DeleteWebAcl?, O.RETRIES)
  }

  lemma QueueIsTheChain(plan: O.Plan)
    ensures |O.DeprovisionQueue(plan)| == |Removals(plan)|
    ensures forall k :: 0 <= k < |Removals(plan)| ==> O.DeprovisionQueue(plan)[k] == StepOf(Removals(plan)[k])
  {
  }

  // ---- nothing is added ----

  ghost predicate Fewer<K, V>(x: map<K, V>, y: map<K, V>) {
    forall k :: k in y ==> k in x && y[k] == x[k]
  }

  /** No listener has a certificate of the instance that it did not have. */
  ghost predicate FewerAttached(x: map<Listener, set<Arn>>, y: map<Listener, set<Arn>>) {
    && y.Keys == x.Keys
    && forall l, a :: l in y && a in y[l] && a.Own? ==> a in x[l]
  }

  ghost predicate Less(x: State, y: State) {
    && y == x.(alias := y.alias, txt := y.txt, iam := y.iam, attached := y.attached, served := y.served,
               dedicated := y.dedicated)
    && Fewer(x.alias, y.alias) && Fewer(x.txt, y.txt) && y.iam <= x.iam && FewerAttached(x.attached, y.attached)
    && Fewer(x.served, y.served)
  }

  lemma LessThrough(x: State, y: State, z: State)
    requires Less(x, y) && Less(y, z)
    ensures Less(x, z)
  {
  }

  // ---- what each task is for ----

  ghost predicate NoAlias(s: State) {
    forall d :: d in s.domains && d in s.alias ==> Some(s.alias[d].target) != s.internal
  }

  /** No TXT record is what one of the challenges asked for. */
  ghost predicate NoTxt(txt: map<string, Txt>, challenges: seq<Challenge>) {
    forall c :: c in challenges && c.domain in txt ==> txt[c.domain].contents != c.contents
  }

  ghost predicate NoTxts(s: State) {
    forall id :: id in s.certificates ==> NoTxt(s.txt, s.certificates[id].challenges)
  }

  /** The certificate that serves can be looked up. */
  predicate Found(s: State) {
    && s.current.Some? && s.current.value in s.certificates && s.certificates[s.current.value].arn.Some?
    && s.listener.Some? && s.listener.value in s.attached
  }

  predicate Off(s: State) {
    s.listener.Some? ==>
      && Found(s)
      && var arn := s.certificates[s.current.value].arn.value;
         arn.Own? ==> arn !in s.attached[s.listener.value]
  }

  predicate NotInIam(s: State, partition: Partition, id: Option<nat>) {
    id.Some? && id.value in s.certificates && s.certificates[id.value].arn.Some? ==>
      Own(partition, id.value) !in s.iam
  }

  ghost predicate Fact(t: Removal, partition: Partition, r: Rest) {
    match t
    case RemoveAliases => NoAlias(r.state)
    case RemoveTxts => NoTxts(r.state)
    case RemoveCertificate => Off(r.state)
    case Disable => Gone(r.state) || r.disabled
    case DeleteDistribution => Gone(r.state)
    case DeleteCertificates =>
      NotInIam(r.state, partition, r.state.pending) && NotInIam(r.state, partition, r.state.current)
    case _ => true
  }

  lemma FactStays(t: Removal, partition: Partition, r: Rest, r': Rest)
    requires Fact(t, partition, r) && Less(r.state, r'.state) && (r.disabled ==> r'.disabled)
    ensures Fact(t, partition, r')
  {
    hide FewerAttached;
    match t {
      case RemoveCertificate => OffStays(r.state, r'.state);
      case _ =>
    }
  }

  lemma OffStays(s: State, s': State)
    requires Off(s) && Less(s, s')
    ensures Off(s')
  {
  }

  lemma {:induction false} AliasesGo(s: State, todo: seq<string>)
    ensures var s' := DeleteAliases(s, todo);
            && s' == s.(alias := s'.alias) && Fewer(s.alias, s'.alias)
            && forall d :: d in todo && d in s'.alias ==> Some(s'.alias[d].target) != s.internal
    decreases |todo|
  {
    if todo != [] {
      AliasesGo(DeleteAlias(s, todo[0]), todo[1..]);
      assert forall d :: d in todo <==> d == todo[0] || d in todo[1..];
    }
  }

  lemma {:induction false} TxtsGo(s: State, todo: seq<Challenge>)
    ensures var s' := DeleteTxts(s, todo);
            s' == s.(txt := s'.txt) && Fewer(s.txt, s'.txt) && NoTxt(s'.txt, todo)
    decreases |todo|
  {
    if todo != [] {
      TxtsGo(DeleteTxt(s, todo[0]), todo[1..]);
      assert forall c :: c in todo <==> c == todo[0] || c in todo[1..];
    }
  }

  lemma FewerHaveNone(txt: map<string, Txt>, txt': map<string, Txt>, challenges: seq<Challenge>)
    requires NoTxt(txt, challenges) && Fewer(txt, txt')
    ensures NoTxt(txt', challenges)
  {
  }

  lemma {:induction false} AllTxtsGo(s: State, ids: seq<nat>)
    requires forall id :: id in ids ==> id in s.certificates
    ensures var s' := DeleteTxtsOf(s, ids);
            && s' == s.(txt := s'.txt) && Fewer(s.txt, s'.txt)
            && forall id :: id in ids ==> NoTxt(s'.txt, s.certificates[id].challenges)
    decreases |ids|
  {
    if ids != [] {
      var s1 := DeleteTxts(s, s.certificates[ids[0]].challenges);
      TxtsGo(s, s.certificates[ids[0]].challenges);
      AllTxtsGo(s1, ids[1..]);
      FewerHaveNone(s1.txt, DeleteTxtsOf(s, ids).txt, s.certificates[ids[0]].challenges);
    }
  }

  lemma OneGoes(s: State, partition: Partition, id: Option<nat>, budget: nat)
    ensures var o := DeleteOne(s, partition, id, budget);
            && o.state == s.(iam := o.state.iam) && o.state.iam <= s.iam
            && (o.ok ==> NotInIam(o.state, partition, id))
  {
  }

  lemma BothGo(s: State, partition: Partition, budget: nat)
    ensures var o := DeleteBoth(s, partition, budget);
            && o.state == s.(iam := o.state.iam) && o.state.iam <= s.iam
            && (o.ok ==> NotInIam(o.state, partition, s.pending) && NotInIam(o.state, partition, s.current))
  {
    hide DeleteOne;
    OneGoes(s, partition, s.pending, budget);
    var o := DeleteOne(s, partition, s.pending, budget);
    if o.ok { OneGoes(o.state, partition, s.current, if budget == 0 then 0 else budget - 1); }
  }

  /** A task only removes, and when it succeeds it has removed what it is for. */
  lemma RunRemoves(t: Removal, partition: Partition, r: Rest, budget: nat)
    ensures var o := Run(t, partition, r, budget);
            && Less(r.state, o.rest.state) && (r.disabled ==> o.rest.disabled)
            && (o.ok ==> Fact(t, partition, o.rest))
  {
    hide InUse;
    match t {
      case RemoveAliases => AliasesGo(r.state, r.state.domains);
      case RemoveTxts => AllTxtsGo(r.state, Ascending(r.state.certificates.Keys));
      case DeleteCertificates => BothGo(r.state, partition, budget);
      case _ =>
    }
  }

  // ---- runs ----

  /** A deprovision under way: what is left of its chain. */
  datatype Running = Running(plan: O.Plan, rest: Rest, todo: seq<Removal>)

  function Begin(s: State, plan: O.Plan): Running {
    Running(plan, Rest(s, false), Removals(plan))
  }

  /** The same can happen to it as to the other pipelines. */
  function Step(r: Running, e: P.Event): Running {
    match e
    case Try(budget) =>
      if r.todo == [] then r
      else
        var o := Run(r.todo[0], PartitionOf(r.plan), r.rest, budget);
        Running(r.plan, o.rest, if o.ok then r.todo[1..] else r.todo)
    case Reject => r
    case Restart => if r.todo == [] then r else r.(todo := Removals(r.plan))
    case Churn(l, foreign, open) => r.(rest := r.rest.(state := P.ChurnListener(r.rest.state, l, foreign, open)))
  }

  function Steps(r: Running, events: seq<P.Event>): Running
    decreases |events|
  {
    if events == [] then r else Steps(Step(r, events[0]), events[1..])
  }

  lemma ChurnIsLess(s: State, l: Listener, foreign: set<nat>, open: seq<Listener>)
    ensures Less(s, P.ChurnListener(s, l, foreign, open))
  {
    var s' := P.ChurnListener(s, l, foreign, open);
    forall k, a | k in s'.attached && a in s'.attached[k] && a.Own? ensures a in s.attached[k] {
      if k == l { assert a in P.OwnArns(s.attached[l]); }
    }
  }

  /** After the first k tasks of the chain. */
  ghost predicate On(s0: State, r: Running, k: nat) {
    && k <= |Removals(r.plan)| && r.todo == Removals(r.plan)[k..]
    && Less(s0, r.rest.state)
    && forall i :: 0 <= i < k ==> Fact(Removals(r.plan)[i], PartitionOf(r.plan), r.rest)
  }

  lemma LessSelf(s: State)
    ensures Less(s, s)
  {
  }

  lemma BeginsOn(s: State, plan: O.Plan)
    ensures On(s, Begin(s, plan), 0)
  {
    LessSelf(s);
    assert Removals(plan)[0..] == Removals(plan);
  }

  /** Facts stay when nothing is added. */
  lemma AllStay(s0: State, r: Running, rest': Rest, k: nat)
    requires On(s0, r, k) && Less(r.rest.state, rest'.state) && (r.rest.disabled ==> rest'.disabled)
    ensures On(s0, r.(rest := rest'), k)
  {
    hide Less, Fact, Removals;
    LessThrough(s0, r.rest.state, rest'.state);
    forall i | 0 <= i < k ensures Fact(Removals(r.plan)[i], PartitionOf(r.plan), rest') {
      FactStays(Removals(r.plan)[i], PartitionOf(r.plan), r.rest, rest');
    }
  }

  lemma StepStaysOn(s0: State, r: Running, k: nat, e: P.Event) returns (k': nat)
    requires On(s0, r, k)
    ensures On(s0, Step(r, e), k') && Step(r, e).plan == r.plan
  {
    hide Less, Fact, Removals, Run;
    k' := k;
    match e {
      case Try(budget) =>
        if r.todo != [] {
          var t := r.todo[0];
          var o := Run(t, PartitionOf(r.plan), r.rest, budget);
          RunRemoves(t, PartitionOf(r.plan), r.rest, budget);
          AllStay(s0, r, o.rest, k);
          if o.ok {
            k' := k + 1;
            assert Removals(r.plan)[k] == t && r.todo[1..] == Removals(r.plan)[k + 1..];
          }
        }
      case Reject =>
      case Restart =>
        if r.todo != [] {
          k' := 0;
          assert Removals(r.plan)[0..] == Removals(r.plan);
        }
      case Churn(l, foreign, open) =>
        ChurnIsLess(r.rest.state, l, foreign, open);
        AllStay(s0, r, r.rest.(state := P.ChurnListener(r.rest.state, l, foreign, open)), k);
    }
  }

  lemma {:induction false} RunStaysOn(s0: State, r: Running, k: nat, events: seq<P.Event>) returns (k': nat)
    requires On(s0, r, k)
    ensures On(s0, Steps(r, events), k') && Steps(r, events).plan == r.plan
    decreases |events|
  {
    hide On, Step;
    k' := k;
    if events != [] {
      var k1 := StepStaysOn(s0, r, k, events[0]);
      k' := RunStaysOn(s0, Step(r, events[0]), k1, events[1..]);
    }
  }

  // ---- main results ----

  /** No record of a domain points at the instance or answers one of its challenges; the
      certificate that served is off its listener, or the distribution is gone; and neither
      the current nor the pending certificate is in IAM. */
  ghost predicate Removed(s: State, plan: O.Plan) {
    && NoAlias(s) && NoTxts(s)
    && (if O.OnDistribution(plan) then Gone(s) else Off(s))
    && NotInIam(s, PartitionOf(plan), s.pending) && NotInIam(s, PartitionOf(plan), s.current)
  }

  lemma FinishedIsRemoved(s0: State, r: Running, k: nat)
    requires On(s0, r, k) && r.todo == []
    ensures Less(s0, r.rest.state) && Removed(r.rest.state, r.plan)
  {
    var chain, p := Removals(r.plan), PartitionOf(r.plan);
    assert k == |chain|;
    var certificates := |chain| - 2;
    assert chain[1] == RemoveAliases && chain[2] == RemoveTxts && chain[certificates] == DeleteCertificates;
    assert Fact(chain[1], p, r.rest) && Fact(chain[2], p, r.rest) && Fact(chain[certificates], p, r.rest);
    match r.plan {
      case Alb => assert Fact(chain[3], p, r.rest);
      case DedicatedAlb => assert Fact(chain[3], p, r.rest);
      case Cdn => assert Fact(chain[5], p, r.rest);
      case CdnWaf => assert chain[11] == DeleteDistribution && Fact(chain[11], p, r.rest);
    }
  }

  /** Whatever state it starts from, and whatever retries, restarts and other tenants come
      in between, a deprovision that finishes has removed all that, and has added nothing. */
  lemma FinishedHasRemoved(s: State, plan: O.Plan, events: seq<P.Event>)
    requires Steps(Begin(s, plan), events).todo == []
    ensures Removed(Steps(Begin(s, plan), events).rest.state, plan)
    ensures Less(s, Steps(Begin(s, plan), events).rest.state)
  {
    hide On, Less, Removed;
    BeginsOn(s, plan);
    var k := RunStaysOn(s, Begin(s, plan), 0, events);
    FinishedIsRemoved(s, Steps(Begin(s, plan), events), k);
  }

  /** The instance serves where instances of the plan do. */
  predicate Serves(s: State, plan: O.Plan) {
    PlaceNow(s).Some? && (PlaceNow(s).value.AtDistribution? <==> O.OnDistribution(plan))
  }

  /** Of the instance: no certificate in IAM or on a listener, no distribution, no record
      for its domains, and none for its challenges. */
  ghost predicate NothingLeft(s: State) {
    && (forall a :: a in s.iam ==> a.Foreign?)
    && (forall l, a :: l in s.attached && a in s.attached[l] ==> a.Foreign?)
    && s.served == map[]
    && (forall d :: d in s.domains ==> d !in s.alias)
    && NoTxts(s)
  }

  /** The one certificate of a steady instance. */
  lemma OneCertificate(s: State, plan: O.Plan)
    requires RR.Steady(s) && Serves(s, plan)
    ensures var p := PlaceNow(s).value;
            var arn := Own(PartitionOf(plan), s.current.value);
            && PartitionAt(p) == PartitionOf(plan)
            && s.current.value in s.certificates && s.certificates[s.current.value].arn == Some(arn)
            && (forall a :: a in s.iam && a.Own? ==> a == arn)
            && (forall l, a :: l in s.attached && a in s.attached[l] && a.Own? ==>
                  a == arn && p.AtListener? && l == p.listener && s.listener == Some(l))
            && s.served == ServedAt(p, arn)
  {
    var p := PlaceNow(s).value;
    assert PartitionAt(p) == PartitionOf(plan);
    forall l, a | l in s.attached && a in s.attached[l] && a.Own?
      ensures a == Own(PartitionOf(plan), s.current.value) && p.AtListener? && l == p.listener
    {
      assert (l, a) in Spot(p, Own(PartitionAt(p), s.current.value));
    }
  }

  lemma NoRecordsLeft(s: State, s': State)
    requires RR.Steady(s) && Less(s, s') && NoAlias(s')
    ensures forall d :: d in s'.domains ==> d !in s'.alias
  {
    forall d | d in s'.domains ensures d !in s'.alias {
      assert d in Domains(s);
    }
  }

  lemma RemovedFromSteady(s: State, s': State, plan: O.Plan)
    requires RR.Steady(s) && Serves(s, plan) && Less(s, s') && Removed(s', plan)
    ensures NothingLeft(s')
  {
    OneCertificate(s, plan);
    NoRecordsLeft(s, s');
    hide RR.Steady, NoTxts, NoAlias;
    forall l, a | l in s'.attached && a in s'.attached[l] && a.Own? ensures a in s.attached[l] && l in s.attached {
      AttachedBefore(s.attached, s'.attached, l, a);
    }
    assert s'.served.Keys == {};
  }

  /**
    A deprovision of an instance between operations leaves nothing of it behind, whatever
    happens to its run, once it finishes.
   */
  lemma NothingIsLeft(s: State, plan: O.Plan, events: seq<P.Event>)
    requires RR.Steady(s) && Serves(s, plan) && Steps(Begin(s, plan), events).todo == []
    ensures NothingLeft(Steps(Begin(s, plan), events).rest.state)
  {
    hide Less, Removed, RR.Steady, NothingLeft, Steps;
    FinishedHasRemoved(s, plan, events);
    RemovedFromSteady(s, Steps(Begin(s, plan), events).rest.state, plan);
  }

  // ---- what is not asked for stays in IAM ----

  /** The certificate of a column, in the partition of the plan. */
  predicate Column(s: State, partition: Partition, a: Arn) {
    && a.Own? && a.partition == partition && (s.pending == Some(a.certificate) || s.current == Some(a.certificate))
    && a.certificate in s.certificates && s.certificates[a.certificate].arn.Some?
  }

  predicate SameRow(s: State, s': State) {
    s'.pending == s.pending && s'.current == s.current && s'.certificates == s.certificates
  }

  lemma OnlyColumnsGo(t: Removal, partition: Partition, r: Rest, budget: nat)
    ensures var s' := Run(t, partition, r, budget).rest.state;
            SameRow(r.state, s') && forall a :: a in r.state.iam ==> a in s'.iam || Column(r.state, partition, a)
  {
    hide TakeOff, DeleteAliases, DeleteTxtsOf, DeleteBoth, Column;
    match t {
      case RemoveAliases => AliasesGo(r.state, r.state.domains);
      case RemoveTxts => AllTxtsGo(r.state, Ascending(r.state.certificates.Keys));
      case RemoveCertificate => TakesNothingFromIam(r, budget);
      case DeleteCertificates => BothAreColumns(r.state, partition, budget);
      case _ =>
    }
  }

  lemma BothAreColumns(s: State, partition: Partition, budget: nat)
    ensures var s' := DeleteBoth(s, partition, budget).state;
            SameRow(s, s') && forall a :: a in s.iam ==> a in s'.iam || Column(s, partition, a)
  {
    hide InUse;
  }

  lemma TakesNothingFromIam(r: Rest, budget: nat)
    ensures TakeOff(r, budget).rest.state.iam == r.state.iam && SameRow(r.state, TakeOff(r, budget).rest.state)
  {
  }

  lemma {:induction false} OthersStay(r: Running, events: seq<P.Event>)
    ensures var s' := Steps(r, events).rest.state;
            && SameRow(r.rest.state, s')
            && forall a :: a in r.rest.state.iam ==> a in s'.iam || Column(r.rest.state, PartitionOf(r.plan), a)
    decreases |events|
  {
    hide Run, Column;
    if events != [] {
      var r1 := Step(r, events[0]);
      if events[0].Try? && r.todo != [] {
        OnlyColumnsGo(r.todo[0], PartitionOf(r.plan), r.rest, events[0].budget);
      }
      OthersStay(r1, events[1..]);
      assert forall a :: Column(r1.rest.state, PartitionOf(r.plan), a) <==> Column(r.rest.state, PartitionOf(r.plan), a)
        by { SameColumns(r.rest.state, r1.rest.state, PartitionOf(r.plan)); }
    }
  }

  lemma SameColumns(s: State, s': State, partition: Partition)
    requires SameRow(s, s')
    ensures forall a :: Column(s', partition, a) <==> Column(s, partition, a)
  {
  }

  /** From any state: a finished deprovision has left exactly those of the instance's
      certificates in IAM that were neither current nor pending, or in another partition. */
  lemma LeftInIam(s: State, plan: O.Plan, events: seq<P.Event>, a: Arn)
    requires Steps(Begin(s, plan), events).todo == [] && a.Own?
    ensures a in Steps(Begin(s, plan), events).rest.state.iam <==> a in s.iam && !Column(s, PartitionOf(plan), a)
  {
    hide Steps, NoAlias, NoTxts, Gone, Off;
    FinishedHasRemoved(s, plan, events);
    OthersStay(Begin(s, plan), events);
  }

  // ---- it can finish, unless there is a listener and no certificate ----

  /** A deprovision that has come to the deletion from IAM finds nothing in use. */
  lemma NothingInUse(s: State, s': State, plan: O.Plan)
    requires RR.Steady(s) && Serves(s, plan) && Less(s, s')
    requires if O.OnDistribution(plan) then Gone(s') else Off(s')
    ensures !InUse(s', Own(PartitionOf(plan), s.current.value))
  {
    var p := PlaceNow(s).value;
    var arn := Own(PartitionAt(p), s.current.value);
    assert PartitionAt(p) == PartitionOf(plan);
    forall l | l in s'.attached && arn in s'.attached[l] ensures p.AtListener? && l == p.listener {
      AttachedBefore(s.attached, s'.attached, l, arn);
      assert (l, arn) in Spot(p, arn);
    }
  }

  lemma AttachedBefore(x: map<Listener, set<Arn>>, y: map<Listener, set<Arn>>, l: Listener, a: Arn)
    requires FewerAttached(x, y) && l in y && a in y[l] && a.Own?
    ensures l in x && a in x[l]
  {
    assert l in y.Keys;
  }

  /** With a listener the certificate that serves it is found. */
  lemma SteadyFinds(s: State, s': State)
    requires RR.Steady(s) && Less(s, s') && s.listener.Some? && PlaceNow(s).value.AtListener?
    ensures Found(s')
  {
    var p := PlaceNow(s).value;
    assert (p.listener, Own(PartitionAt(p), s.current.value)) in Spot(p, Own(PartitionAt(p), s.current.value));
  }

  lemma TaskSucceeds(s: State, r: Running, k: nat)
    requires RR.Steady(s) && Serves(s, r.plan) && On(s, r, k) && r.todo != []
    ensures Run(r.todo[0], PartitionOf(r.plan), r.rest, 2).ok
  {
    hide RR.Steady, Less, InUse, Detach;
    var chain := Removals(r.plan);
    assert r.todo[0] == chain[k];
    SteadyFacts(s, r.rest.state);
    match r.todo[0] {
      case RemoveCertificate => SteadyFinds(s, r.rest.state);
      case WaitDisabled => assert Fact(chain[k - 1], PartitionOf(r.plan), r.rest);
      case DeleteDistribution => assert Fact(chain[k - 2], PartitionOf(r.plan), r.rest);
      case DeleteCertificates =>
        if O.OnDistribution(r.plan) {
          assert Fact(chain[if r.plan.Cdn? then 5 else 11], PartitionOf(r.plan), r.rest);
        } else {
          assert Fact(chain[3], PartitionOf(r.plan), r.rest);
        }
        NothingInUse(s, r.rest.state, r.plan);
      case _ =>
    }
  }

  lemma SteadyFacts(s: State, s': State)
    requires RR.Steady(s) && Less(s, s')
    ensures s'.pending.None? && s'.current == s.current && s'.listener == s.listener
    ensures s'.distribution == s.distribution
  {
  }

  lemma {:induction false} TriesFinish(s: State, r: Running, k: nat) returns (more: seq<P.Event>)
    requires RR.Steady(s) && Serves(s, r.plan) && On(s, r, k)
    ensures Steps(r, more).todo == [] && forall i :: 0 <= i < |more| ==> more[i] == P.Try(2)
    decreases |r.todo|
  {
    hide RR.Steady, On, Run;
    more := [];
    if r.todo != [] {
      TaskSucceeds(s, r, k);
      var k1 := StepStaysOn(s, r, k, P.Try(2));
      more := TriesFinish(s, Step(r, P.Try(2)), k1);
      more := [P.Try(2)] + more;
    }
  }

  /** Whatever has happened to its run, tries alone can finish the deprovision of an instance
      that was between operations. */
  lemma CanBeFinished(s: State, plan: O.Plan, events: seq<P.Event>) returns (more: seq<P.Event>)
    requires RR.Steady(s) && Serves(s, plan)
    ensures Steps(Steps(Begin(s, plan), events), more).todo == []
    ensures forall i :: 0 <= i < |more| ==> more[i] == P.Try(2)
  {
    hide RR.Steady, On;
    BeginsOn(s, plan);
    var k := RunStaysOn(s, Begin(s, plan), 0, events);
    more := TriesFinish(s, Steps(Begin(s, plan), events), k);
  }

  /** A listener was chosen, and no certificate promoted. */
  predicate HalfPlaced(s: State) {
    s.listener.Some? && s.current.None?
  }

  lemma HalfPlacedNeverOff(s: State, s': State)
    requires HalfPlaced(s) && Less(s, s')
    ensures !Off(s')
  {
  }

  /** A load-balanced instance that has a listener and no certificate is never deprovisioned:
      the task that takes its certificate off fails every time. */
  lemma HalfPlacedNeverFinishes(s: State, plan: O.Plan, events: seq<P.Event>)
    requires HalfPlaced(s) && !O.OnDistribution(plan)
    ensures Steps(Begin(s, plan), events).todo != []
  {
    hide On, Less, Steps;
    BeginsOn(s, plan);
    var k := RunStaysOn(s, Begin(s, plan), 0, events);
    if Steps(Begin(s, plan), events).todo == [] {
      FinishedIsRemoved(s, Steps(Begin(s, plan), events), k);
      HalfPlacedNeverOff(s, Steps(Begin(s, plan), events).rest.state);
    }
  }

  // ---- it happens ----

  /** What makes a certificate the current one of an instance on a shared listener has a
      listener to put it on. */
  lemma PromotionHasListener(r: P.Run, e: P.Event, offered: set<Listener>)
    requires PlanPlaces.Toward(O.Alb, r, offered) && r.state.current.None? && P.Step(r, e).state.current.Some?
    ensures r.state.listener.Some?
  {
    hide Usable;
    if e.Try? && r.todo.Then? {
      var t := r.todo.task;
      if Frames.Loops(t) {
        Frames.LoopFrame(t, P.Provisions(r.kind), r.state, e.budget);
      } else if !Frames.Promotes(t) {
        DroppedDomains.OtherKeepsColumns(t, P.Provisions(r.kind), r.state, e.budget);
      } else if !t.AddCertificateToAlbTask? {
        PlanPlaces.NextIsOwn(O.Alb, r, offered);
      }
    }
  }

  /** So a run that ends with one has been where there was a listener and none. */
  lemma {:induction false} PassesHalfPlaced(r: P.Run, events: seq<P.Event>, offered: set<Listener>) returns (k: nat)
    requires PlanPlaces.Toward(O.Alb, r, offered) && r.state.current.None? && P.Steps(r, events).state.current.Some?
    ensures k <= |events| && HalfPlaced(P.Steps(r, events[..k]).state)
    decreases |events|
  {
    hide PlanPlaces.Toward, P.Step;
    var e, r1 := events[0], P.Step(r, events[0]);
    if r1.state.current.None? {
      PlanPlaces.StepStaysToward(O.Alb, r, offered, e);
      k := PassesHalfPlaced(r1, events[1..], offered + PlanPlaces.OfferedBy(e));
      k := k + 1;
      assert events[..k][0] == e && events[..k][1..] == events[1..][..k - 1];
    } else {
      PromotionHasListener(r, e, offered);
      k := 0;
    }
  }

  lemma SteadyHasCertificate(s: State)
    requires RR.Steady(s)
    ensures s.current.Some?
  {
  }

  lemma NewHasNone(s: State)
    requires Provisioning.New(s)
    ensures s.current.None? && s.listener.None?
  {
  }

  /** A new instance whose provisioning is canceled at the wrong moment: no deprovision of
      it ever finishes. */
  lemma ACanceledProvisioningStays() returns (s0: State, provisioning: seq<P.Event>)
    ensures Provisioning.New(s0)
    ensures var s := P.Steps(P.Begin(s0, P.AlbProvision), provisioning).state;
            HalfPlaced(s) && forall events :: Steps(Begin(s, O.Alb), events).todo != []
  {
    hide Provisioning.New, Provisioning.InUseNow, RR.Steady, P.Steps, P.TasksOf, Steps;
    s0 := Lifecycle.ANewInstance(P.AlbProvision);
    var r0 := P.Begin(s0, P.AlbProvision);
    var all := Lifecycle.ProvisioningFinishes(s0, P.AlbProvision, []);
    Lifecycle.AtBegin(r0);
    SteadyHasCertificate(P.Steps(r0, all).state);
    NewHasNone(s0);
    PlanPlaces.ChainIsOwn(P.AlbProvision, O.Alb);
    var k := PassesHalfPlaced(r0, all, PlanPlaces.Offered(s0, []));
    provisioning := all[..k];
    var s := P.Steps(r0, provisioning).state;
    forall events ensures Steps(Begin(s, O.Alb), events).todo != [] { HalfPlacedNeverFinishes(s, O.Alb, events); }
  }

  // ---- a renewal that is interrupted ----

  /** The new certificate was promoted, and the old one not yet taken off its listener. */
  ghost predicate Renewing(s: State, ph: Phase, g: Plan) {
    InRotation(s, ph, g) && HasPromoted(ph) && !ph.detached
  }

  lemma NotFinishedYet(r: P.Run, ph: Phase, g: Plan)
    requires RR.Running(r, ph, g, true) && !HasPromoted(ph)
    ensures r.todo.Then?
  {
  }

  /** A step of a renewal behind a listener comes no further than the promotion. */
  lemma StepAtMostPromotes(r: P.Run, ph: Phase, g: Plan, e: P.Event) returns (ph': Phase)
    requires RR.Running(r, ph, g, true) && !HasPromoted(ph) && g.place.AtListener? && !g.toCdn
    requires RR.Admissible(r, g, e)
    ensures RR.Running(P.Step(r, e), ph', g, true) && (HasPromoted(ph') ==> !ph'.detached)
  {
    NotFinishedYet(r, ph, g);
    assert !ph.detached && Allowed(ph, r.todo.task, g, true);
    hide RR.Running, InRotation, P.Execute;
    ph' := ph;
    match e {
      case Try(budget) => ph' := RR.TryKeeps(r, ph, g, true, budget);
      case Reject => RR.RejectStepKeeps(r, ph, g, true);
      case Restart => ph' := RR.RestartStepKeeps(r, ph, g, true);
      case Churn(_, _, _) => RR.ChurnStepKeeps(r, ph, g, true, e);
    }
  }

  lemma {:induction false} PassesPromotion(r: P.Run, ph: Phase, g: Plan, events: seq<P.Event>)
    returns (k: nat, ph': Phase)
    requires RR.Running(r, ph, g, true) && RR.AdmissibleRun(r, g, events) && !HasPromoted(ph)
    requires g.place.AtListener? && !g.toCdn && P.Steps(r, events).todo.Finished?
    ensures k <= |events| && Renewing(P.Steps(r, events[..k]).state, ph', g)
    decreases |events|
  {
    hide RR.Running, InRotation, P.Step;
    NotFinishedYet(r, ph, g);
    var r1 := P.Step(r, events[0]);
    ph' := StepAtMostPromotes(r, ph, g, events[0]);
    k := 0;
    if HasPromoted(ph') {
      assert InRotation(r1.state, ph', g) by { RunningIsIn(r1, ph', g); }
    } else {
      k, ph' := PassesPromotion(r1, ph', g, events[1..]);
    }
    k := k + 1;
    assert events[..k][0] == events[0] && events[..k][1..] == events[1..][..k - 1];
    assert P.Steps(r, events[..k]) == P.Steps(r1, events[..k][1..]);
    if k == 1 { assert events[..k][1..] == []; }
  }

  lemma RunningIsIn(r: P.Run, ph: Phase, g: Plan)
    requires RR.Running(r, ph, g, true)
    ensures InRotation(r.state, ph, g)
  {
  }

  /** By then the old certificate is in IAM and in no column. */
  lemma OldIsInNoColumn(s: State, ph: Phase, g: Plan)
    requires Renewing(s, ph, g) && !g.reuse && g.place.AtListener?
    ensures Own(GovCloud, g.outgoing) in s.iam && !Column(s, GovCloud, Own(GovCloud, g.outgoing))
  {
  }

  lemma RenewalStarts(s: State)
    requires RR.Steady(s) && PlaceNow(s).value.AtListener?
    ensures RR.Startable(s, P.AlbRenewal, s.domains) && RR.Request(s, P.AlbRenewal, s.domains) == s
    ensures var g := RR.PlanOf(s, P.AlbRenewal, s.domains);
            g.place.AtListener? && !g.toCdn && !g.reuse && Some(g.outgoing) == s.current
  {
  }

  /** A new instance is provisioned and renewed, and a deprovision interrupts the renewal once
      it has promoted the new certificate: the old one stays in IAM, whatever happens. */
  lemma AnInterruptedRenewalLeaks()
    returns (s0: State, provisioning: seq<P.Event>, renewing: seq<P.Event>, outgoing: Arn)
    ensures Provisioning.New(s0)
    ensures var provisioned := P.Steps(P.Begin(s0, P.AlbProvision), provisioning);
            var s := P.Steps(P.Begin(provisioned.state, P.AlbRenewal), renewing).state;
            && provisioned.todo.Finished? && RR.Steady(provisioned.state) && outgoing.Own?
            && forall events :: outgoing in Steps(Begin(s, O.Alb), events).rest.state.iam
  {
    hide Provisioning.New, Provisioning.InUseNow, RR.Steady, P.Steps, P.TasksOf, Steps, RR.Startable,
         RotationProgress.Available, RR.Running, Renewing, Column;
    s0 := Lifecycle.ANewInstance(P.AlbProvision);
    provisioning := Lifecycle.ProvisioningFinishes(s0, P.AlbProvision, []);
    Lifecycle.AtBegin(P.Begin(s0, P.AlbProvision));
    var steady := P.Steps(P.Begin(s0, P.AlbProvision), provisioning).state;
    Lifecycle.TopIsAvailable(s0, steady, P.AlbProvision);
    RenewalStarts(steady);
    var g := RR.PlanOf(steady, P.AlbRenewal, steady.domains);
    var r0 := P.Begin(steady, P.AlbRenewal);
    Lifecycle.AtBegin(r0);
    var all := RotationProgress.RotationCanFinish(steady, P.AlbRenewal, steady.domains, []);
    RR.StartRun(steady, P.AlbRenewal, steady.domains);
    var k, ph := PassesPromotion(r0, START, g, all);
    renewing := all[..k];
    var s := P.Steps(r0, renewing).state;
    OldIsInNoColumn(s, ph, g);
    outgoing := Own(GovCloud, g.outgoing);
    forall events ensures outgoing in Steps(Begin(s, O.Alb), events).rest.state.iam {
      OthersStay(Begin(s, O.Alb), events);
    }
  }
}
