/**
  The effect of each pipeline task on the state, as a function.

  A task is given a budget: how many external calls of its main loop succeed
  before one fails. A task without a loop needs a budget of one. What a task
  committed before it failed stays, what it had not committed is lost.
 */
module Tasks {
  import opened Wrappers
  import opened Records

  /** The state a task leaves, and whether it finished. */
  datatype Outcome = Outcome(state: State, ok: bool)

  function Done(s: State): Outcome {
    Outcome(s, true)
  }

  function Failed(s: State): Outcome {
    Outcome(s, false)
  }

  // ---- broker/tasks/letsencrypt.py ----

  function CreateUser(s: State, budget: nat): Outcome {
    if s.user.Some? then Done(s)
    else if budget == 0 then Failed(s)
    else Done(s.(user := Some(s.nextId), nextId := s.nextId + 1))
  }

  function GenerateKey(s: State, budget: nat): Outcome {
    if s.pending.Some? then Done(s)
    else if budget == 0 then Failed(s)
    else
      var row := Certificate(s.domains, None, [], false, None);
      Done(s.(pending := Some(s.nextId),
              certificates := s.certificates[s.nextId := row],
              nextId := s.nextId + 1))
  }

  function NewChallenge(order: nat, authorized: set<string>, domain: string): Challenge {
    Challenge(domain, Token(order, domain), domain in authorized, false)
  }

  function NewChallenges(order: nat, authorized: set<string>, domains: seq<string>): (r: seq<Challenge>)
    ensures |r| == |domains|
    ensures forall i :: 0 <= i < |r| ==> r[i] == NewChallenge(order, authorized, domains[i])
  {
    if domains == [] then []
    else [NewChallenge(order, authorized, domains[0])] + NewChallenges(order, authorized, domains[1..])
  }

  /** The order is placed for the names of the CSR, so a domain that is not one
      of them has no authorization and the task fails before its commit. */
  function InitiateChallenges(s: State, budget: nat): Outcome {
    if s.pending.None? || s.pending.value !in s.certificates then Failed(s)
    else
      var row := s.certificates[s.pending.value];
      if row.order.Some? then Done(s)
      else if s.user.None? || budget == 0 || exists d :: d in s.domains && d !in row.names then Failed(s)
      else
        var row' := row.(order := Some(s.nextId),
                         challenges := NewChallenges(s.nextId, s.authorized, s.domains));
        Done(s.(certificates := s.certificates[s.pending.value := row'], nextId := s.nextId + 1))
  }

  /** Mark challenge i of the pending certificate answered, sending it to the
      authority unless its authorization was valid from the start. */
  function AnswerOne(s: State, id: nat, i: nat): State
    requires id in s.certificates && i < |s.certificates[id].challenges|
  {
    var row := s.certificates[id];
    var c := row.challenges[i];
    var row' := row.(challenges := row.challenges[i := c.(answered := true)]);
    s.(certificates := s.certificates[id := row'],
       answers := if c.alreadyValid then s.answers else s.answers + [Answer(id, c.domain, Live(s, c))])
  }

  function AnswerFrom(s: State, id: nat, i: nat, budget: nat): Outcome
    requires id in s.certificates && i <= |s.certificates[id].challenges|
    decreases |s.certificates[id].challenges| - i
  {
    var challenges := s.certificates[id].challenges;
    if i == |challenges| then Done(s)
    else if challenges[i].answered then AnswerFrom(s, id, i + 1, budget)
    else if budget == 0 then Failed(s)
    else AnswerFrom(AnswerOne(s, id, i), id, i + 1, budget - 1)
  }

  function AnswerChallenges(s: State, budget: nat): Outcome {
    if s.pending.None? || s.pending.value !in s.certificates then Failed(s)
    else AnswerFrom(s, s.pending.value, 0, budget)
  }

  predicate AllAnswered(challenges: seq<Challenge>) {
    forall i :: 0 <= i < |challenges| ==> challenges[i].answered
  }

  /** The authority finalizes an order only when all its challenges are answered. */
  function RetrieveCertificate(s: State, budget: nat): Outcome {
    if s.pending.None? || s.pending.value !in s.certificates then Failed(s)
    else
      var row := s.certificates[s.pending.value];
      if row.leaf then Done(s)
      else if row.order.None? || budget == 0 || !AllAnswered(row.challenges) then Failed(s)
      else Done(s.(certificates := s.certificates[s.pending.value := row.(leaf := true)]))
  }

  /** The authority can reject an order that has no certificate yet: the pending
      row and, with it, its challenges are deleted. */
  function RejectOrder(s: State): State {
    if s.pending.None? || s.pending.value !in s.certificates then s
    else if s.certificates[s.pending.value].leaf || s.certificates[s.pending.value].order.None? then s
    else s.(pending := None, certificates := s.certificates - {s.pending.value})
  }

  // ---- broker/tasks/route53.py ----

  function UpsertTxt(s: State, c: Challenge): State {
    s.(txt := s.txt[c.domain := Txt(c.contents, s.nextChange)],
       changeIds := s.changeIds + [s.nextChange],
       nextChange := s.nextChange + 1)
  }

  function UpsertTxts(s: State, todo: seq<Challenge>, budget: nat): Outcome
    decreases |todo|
  {
    if todo == [] then Done(s)
    else if todo[0].answered then UpsertTxts(s, todo[1..], budget)
    else if budget == 0 then Failed(s)
    else UpsertTxts(UpsertTxt(s, todo[0]), todo[1..], budget - 1)
  }

  function CreateTxtRecords(s: State, budget: nat): Outcome {
    if s.pending.None? || s.pending.value !in s.certificates then Failed(s)
    else UpsertTxts(s, s.certificates[s.pending.value].challenges, budget)
  }

  /** Wait for the first of the stored changes and forget it. */
  function WaitOne(s: State): State
    requires s.changeIds != []
  {
    s.(changeIds := s.changeIds[1..], insync := s.insync + {s.changeIds[0]})
  }

  function WaitForChanges(s: State, budget: nat): Outcome
    decreases |s.changeIds|
  {
    if s.changeIds == [] then Done(s)
    else if budget == 0 then Failed(s)
    else WaitForChanges(WaitOne(s), budget - 1)
  }

  /** Route 53 deletes a record only when the request matches it exactly, and the
      task ignores the error otherwise. */
  function DeleteOldRecords(s: State, c: Challenge): State {
    s.(txt := if c.domain in s.txt && s.txt[c.domain].contents == c.contents then s.txt - {c.domain} else s.txt,
       alias := if c.domain in s.alias && Some(s.alias[c.domain].target) == s.internal
       then s.alias - {c.domain} else s.alias)
  }

  function DeleteOlds(s: State, todo: seq<Challenge>): State
    decreases |todo|
  {
    if todo == [] then s
    else if todo[0].domain in s.domains then DeleteOlds(s, todo[1..])
    else DeleteOlds(DeleteOldRecords(s, todo[0]), todo[1..])
  }

  function RemoveOldDnsRecords(s: State): Outcome {
    if s.current.None? || s.current.value !in s.certificates then Failed(s)
    else Done(DeleteOlds(s, s.certificates[s.current.value].challenges))
  }

  function UpsertAlias(s: State, domain: string, target: Target): State {
    var stale := if domain in s.alias then Visible(s.alias[domain], s.insync) else {};
    s.(alias := s.alias[domain := Alias(target, s.nextChange, stale)],
       changeIds := s.changeIds + [s.nextChange],
       nextChange := s.nextChange + 1)
  }

  function UpsertAliases(s: State, todo: seq<string>, budget: nat): Outcome
    decreases |todo|
  {
    if todo == [] then Done(s)
    else if budget == 0 || s.internal.None? then Failed(s)
    else UpsertAliases(UpsertAlias(s, todo[0], s.internal.value), todo[1..], budget - 1)
  }

  function CreateAliasRecords(s: State, budget: nat): Outcome {
    UpsertAliases(s, s.domains, budget)
  }

  // ---- broker/tasks/iam.py ----

  function UploadServerCertificate(s: State, partition: Partition, budget: nat): Outcome {
    if s.pending.None? || s.pending.value !in s.certificates then Failed(s)
    else
      var row := s.certificates[s.pending.value];
      if row.arn.Some? then Done(s)
      else if !row.leaf || budget == 0 then Failed(s)
      else
        var arn := Own(partition, s.pending.value);
        Done(s.(certificates := s.certificates[s.pending.value := row.(arn := Some(arn))],
                iam := s.iam + {arn}))
  }

  predicate InUse(s: State, arn: Arn) {
    || (exists l :: l in s.attached && arn in s.attached[l])
    || (exists d :: d in s.served && arn == s.served[d])
  }

  /** Delete the IAM certificates of the given rows, in order. A row that was
      never uploaded has no name to ask for, and IAM refuses to delete a
      certificate in use: both stop the task. */
  function DeleteFromIam(s: State, partition: Partition, todo: seq<nat>, budget: nat): Outcome
    requires forall id :: id in todo ==> id in s.certificates
    decreases |todo|
  {
    if todo == [] then Done(s)
    else if budget == 0 || s.certificates[todo[0]].arn.None? then Failed(s)
    else
      var arn := Own(partition, todo[0]);
      if arn in s.iam && InUse(s, arn) then Failed(s)
      else DeleteFromIam(s.(iam := s.iam - {arn}), partition, todo[1..], budget - 1)
  }

  /** The rows go in one commit at the end, the IAM certificates one by one. */
  function DeletePreviousCertificates(s: State, partition: Partition, budget: nat): Outcome {
    var o := DeleteFromIam(s, partition, Ascending(Others(s)), budget);
    if !o.ok then o
    else Done(o.state.(certificates := o.state.certificates - Others(s)))
  }

  // ---- broker/tasks/alb.py ----

  function SelectFrom(s: State, listeners: seq<Listener>, provisioning: bool, budget: nat): Outcome {
    if s.listener.Some? && provisioning then Done(s)
    else if listeners == [] || budget == 0 then Failed(s)
    else Done(s.(previous := s.listener, listener := Some(Lowest(listeners, s.attached))))
  }

  function SelectAlb(s: State, provisioning: bool, budget: nat): Outcome {
    SelectFrom(s, s.shared, provisioning, budget)
  }

  function SelectDedicatedAlb(s: State, provisioning: bool, budget: nat): Outcome {
    SelectFrom(s, s.dedicated, provisioning, budget)
  }

  /** The pending certificate as a service can use it: uploaded and still there. */
  predicate Usable(s: State, id: Option<nat>) {
    && id.Some?
    && id.value in s.certificates
    && s.certificates[id.value].arn.Some?
    && s.certificates[id.value].arn.value in s.iam
  }

  function Promote(s: State): State {
    s.(current := s.pending, pending := None)
  }

  function Attach(s: State, l: Listener, arn: Arn): State
    requires l in s.attached
  {
    s.(attached := s.attached[l := s.attached[l] + {arn}])
  }

  function Detach(s: State, l: Listener, arn: Arn): State
    requires l in s.attached
  {
    s.(attached := s.attached[l := s.attached[l] - {arn}])
  }

  function AddCertificateToAlb(s: State, budget: nat): Outcome {
    if !Usable(s, s.pending) || s.listener.None? || s.listener.value !in s.attached || budget == 0 then Failed(s)
    else
      var l := s.listener.value;
      var s1 := Attach(s, l, s.certificates[s.pending.value].arn.value);
      Done(Promote(s1.(internal := Some(TargetOf(l)))))
  }

  /** The one certificate row that is not the current one; without a previous
      listener the wait for its removal has nothing to ask AWS for, and fails. */
  function RemoveCertificateFromPreviousAlb(s: State, budget: nat): Outcome {
    if Others(s) == {} || s.previous.None? || s.previous.value !in s.attached || budget == 0 then Failed(s)
    else
      var row := s.certificates[Ascending(Others(s))[0]];
      if row.arn.None? then Failed(s)
      else Done(Detach(s, s.previous.value, row.arn.value).(previous := None))
  }

  function RemoveFromPreviousAlbDuringUpdateToDedicated(s: State, budget: nat): Outcome {
    if s.previous.None? then Done(s)
    else if s.current.None? || s.current.value !in s.certificates || s.certificates[s.current.value].arn.None?
            || s.previous.value !in s.attached || budget == 0 then Failed(s)
    else Done(Detach(s, s.previous.value, s.certificates[s.current.value].arn.value).(previous := None))
  }

  function RemoveAlbCertificateDuringUpdateToCdn(s: State, budget: nat): Outcome {
    if s.listener.None? then Done(s.(albCertificate := None, previous := None))
    else if s.albCertificate.None? || s.albCertificate.value !in s.certificates
            || s.certificates[s.albCertificate.value].arn.None?
            || s.listener.value !in s.attached || budget == 0 then Failed(s)
    else
      var s1 := Detach(s, s.listener.value, s.certificates[s.albCertificate.value].arn.value);
      Done(s1.(albCertificate := None, previous := None))
  }

  function StoreAlbCertificate(s: State): Outcome {
    Done(s.(albCertificate := s.current))
  }

  // ---- broker/tasks/cloudfront.py ----

  function CreateDistribution(s: State, budget: nat): Outcome {
    if s.distribution.Some? && s.distribution.value in s.served then Done(s)
    else if !Usable(s, s.pending) || budget == 0 then Failed(s)
    else
      var id := s.nextId;
      Done(Promote(s.(served := s.served[id := s.certificates[s.pending.value].arn.value],
                      distribution := Some(id),
                      internal := Some(Distribution(id)),
                      nextId := s.nextId + 1)))
  }

  /** The certificate part of update_distribution and of update_certificate. */
  function UpdateDistribution(s: State, budget: nat): Outcome {
    if s.distribution.None? || s.distribution.value !in s.served || !Usable(s, s.pending) || budget == 0
    then Failed(s)
    else
      Done(Promote(s.(served := s.served[s.distribution.value := s.certificates[s.pending.value].arn.value])))
  }

  function WaitForDistribution(s: State, budget: nat): Outcome {
    if s.distribution.None? || budget == 0 then Failed(s) else Done(s)
  }
}
