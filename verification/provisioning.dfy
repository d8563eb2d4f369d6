/**
  Provisioning can be restarted.

  However often the provisioning pipeline fails, is retried, or is started again
  from its first task before the certificate is put to use, it ends in the one
  state that an uninterrupted run ends in: one account with the authority, one
  certificate row, one order, one challenge for each domain, each answered at
  most once and only while its record was live, one upload, one place.
 */
module Provisioning {
  import opened Wrappers
  import opened Records
  import opened Tasks
  import opened Pipelines

  /** A new instance: nothing of it exists anywhere yet. */
  ghost predicate New(s: State) {
    && s.user.None? && s.current.None? && s.pending.None? && s.albCertificate.None?
    && s.listener.None? && s.previous.None? && s.distribution.None? && s.internal.None?
    && s.changeIds == [] && s.certificates == map[] && s.served == map[] && s.answers == []
    && (forall a :: a in s.iam ==> a.Foreign?)
    && (forall l, a :: l in s.attached && a in s.attached[l] ==> a.Foreign?)
    && (forall c :: c in s.insync ==> c < s.nextChange)
  }

  // ---- the goal ----

  function UserId(s0: State): nat { s0.nextId }

  function CertificateId(s0: State): nat { s0.nextId + 1 }

  function OrderId(s0: State): nat { s0.nextId + 2 }

  function PartitionOf(kind: Kind): Partition {
    if ToDistribution(kind) then Commercial else GovCloud
  }

  function ArnOf(s0: State, kind: Kind): Arn {
    Own(PartitionOf(kind), CertificateId(s0))
  }

  function Listeners(s0: State, kind: Kind): seq<Listener> {
    if kind.DedicatedProvision? then s0.dedicated else s0.shared
  }

  /** The listener a new instance is placed on. */
  function Choice(s0: State, kind: Kind): Option<Listener> {
    if ToDistribution(kind) || Listeners(s0, kind) == [] then None
    else Some(Lowest(Listeners(s0, kind), s0.attached))
  }

  /** The answers sent for the first n domains: none for a domain whose
      authorization was valid already. */
  function Sent(s0: State, n: nat): seq<Answer>
    requires n <= |s0.domains|
  {
    if n == 0 then []
    else if s0.domains[n - 1] in s0.authorized then Sent(s0, n - 1)
    else Sent(s0, n - 1) + [Answer(CertificateId(s0), s0.domains[n - 1], true)]
  }

  /** The challenge rows when the first n are answered. */
  function Challenges(s0: State, n: nat): (r: seq<Challenge>)
    ensures |r| == |s0.domains|
  {
    seq(|s0.domains|, i requires 0 <= i < |s0.domains| =>
        NewChallenge(OrderId(s0), s0.authorized, s0.domains[i]).(answered := i < n))
  }

  /** What can be seen of a state, change ids apart. */
  datatype Observation = Observation(
    user: Option<nat>, current: Option<nat>, pending: Option<nat>,
    listener: Option<Listener>, previous: Option<Listener>, distribution: Option<nat>, internal: Option<Target>,
    changeIds: seq<nat>,
    certificates: map<nat, Certificate>,
    iam: set<Arn>, attached: map<Listener, set<Arn>>, served: map<nat, Arn>,
    aliases: map<string, Target>, txts: map<string, Token>,
    answers: seq<Answer>,
    nextId: nat)

  function Targets(alias: map<string, Alias>): map<string, Target> {
    map d | d in alias :: alias[d].target
  }

  function Contents(txt: map<string, Txt>): map<string, Token> {
    map d | d in txt :: txt[d].contents
  }

  function Observe(s: State): Observation {
    Observation(s.user, s.current, s.pending, s.listener, s.previous, s.distribution, s.internal, s.changeIds,
                s.certificates, s.iam, s.attached, s.served,
                Targets(s.alias), Contents(s.txt),
                s.answers, s.nextId)
  }

  /** There is a listener to place it on, if it needs one. */
  predicate Placeable(s0: State, kind: Kind) {
    ToDistribution(kind) || (Choice(s0, kind).Some? && Choice(s0, kind).value in s0.attached)
  }

  /** The target DNS is pointed at. */
  function GoalTarget(s0: State, kind: Kind): Target
    requires Placeable(s0, kind)
  {
    if ToDistribution(kind) then Distribution(s0.nextId + 3) else TargetOf(Choice(s0, kind).value)
  }

  function GoalRow(s0: State, kind: Kind): Certificate {
    Certificate(s0.domains, Some(OrderId(s0)), Challenges(s0, |s0.domains|), true, Some(ArnOf(s0, kind)))
  }

  function GoalAttached(s0: State, kind: Kind): map<Listener, set<Arn>>
    requires Placeable(s0, kind)
  {
    if ToDistribution(kind) then s0.attached
    else s0.attached[Choice(s0, kind).value := s0.attached[Choice(s0, kind).value] + {ArnOf(s0, kind)}]
  }

  function GoalAliases(s0: State, kind: Kind): map<string, Target>
    requires Placeable(s0, kind)
  {
    Targets(s0.alias) + (map d | d in s0.domains :: GoalTarget(s0, kind))
  }

  function GoalTxts(s0: State): map<string, Token> {
    Contents(s0.txt) + (map d | d in s0.domains :: Token(OrderId(s0), d))
  }

  function GoalDistribution(s0: State, kind: Kind): Option<nat> {
    if ToDistribution(kind) then Some(s0.nextId + 3) else None
  }

  function GoalServed(s0: State, kind: Kind): map<nat, Arn> {
    if ToDistribution(kind) then map[s0.nextId + 3 := ArnOf(s0, kind)] else map[]
  }

  function GoalId(s0: State, kind: Kind): nat {
    if ToDistribution(kind) then s0.nextId + 4 else s0.nextId + 3
  }

  /** The one final state. */
  function Goal(s0: State, kind: Kind): Observation
    requires Placeable(s0, kind)
  {
    Observation(
      Some(UserId(s0)), Some(CertificateId(s0)), None,
      Choice(s0, kind), None, GoalDistribution(s0, kind), Some(GoalTarget(s0, kind)),
      [],
      map[CertificateId(s0) := GoalRow(s0, kind)],
      s0.iam + {ArnOf(s0, kind)},
      GoalAttached(s0, kind),
      GoalServed(s0, kind),
      GoalAliases(s0, kind),
      GoalTxts(s0),
      Sent(s0, |s0.domains|),
      GoalId(s0, kind))
  }

  // ---- progress ----

  /** A firewall is set up before a distribution, or after a load balancer is chosen. */
  function BesideDistribution(level: nat, kind: Kind): Option<nat> {
    if level == 10 || (level == 8 && kind.CdnWafProvision?) then Some(level) else None
  }

  /** How far a run of the pipeline has come since its last start. */
  function NextLevel(level: nat, t: Task, kind: Kind): Option<nat> {
    match t
    case CreateUserTask => if level == 0 then Some(1) else None
    case GenerateKeyTask => if level == 1 then Some(2) else None
    case InitiateChallengesTask => if level == 2 then Some(3) else None
    case CreateTxtTask => if level == 3 then Some(4) else None
    case WaitForChangesTask => if level == 4 then Some(5) else if level == 11 then Some(12) else None
    case AnswerChallengesTask => if level == 5 then Some(6) else None
    case RetrieveCertificateTask => if level == 6 then Some(7) else None
    case UploadTask(p) => if level == 7 && p == PartitionOf(kind) then Some(8) else None
    case SelectAlbTask => if level == 8 && kind.AlbProvision? then Some(9) else None
    case SelectDedicatedAlbTask => if level == 8 && kind.DedicatedProvision? then Some(9) else None
    case AddCertificateToAlbTask => if level == 9 && !ToDistribution(kind) then Some(10) else None
    case CreateDistributionTask => if level == 8 && ToDistribution(kind) then Some(10) else None
    case WaitForDistributionTask => if level == 10 && ToDistribution(kind) then Some(10) else None
    case CreateWebAclTask => BesideDistribution(level, kind)
    case PutWafLoggingTask => BesideDistribution(level, kind)
    case AssociateWebAclTask => if level == 10 then Some(10) else None
    case CreateAliasTask => if level == 10 then Some(11) else None
    case CreateTopicTask => if level == 12 then Some(12) else None
    case SubscribeTopicTask => if level == 12 then Some(12) else None
    case CreateNewHealthChecksTask => if level == 12 then Some(12) else None
    case AssociateHealthCheckTask => if level == 12 then Some(12) else None
    case CreateHealthCheckAlarmsTask => if level == 12 then Some(12) else None
    case CreateDdosAlarmTask => if level == 12 then Some(12) else None
    case ProvisionTask => if level == 12 then Some(13) else None
    case _ => None
  }

  predicate OnTrack(level: nat, todo: Pipeline, kind: Kind)
    decreases todo
  {
    match todo
    case Finished => level == 13
    case Then(t, rest) => NextLevel(level, t, kind).Some? && OnTrack(NextLevel(level, t, kind).value, rest, kind)
  }

  predicate Written(txt: map<string, Txt>, order: nat, domain: string) {
    domain in txt && txt[domain].contents == Token(order, domain)
  }

  /** The records of names that are not the instance's. */
  function Outside<T>(records: map<string, T>, domains: seq<string>): map<string, T> {
    map d | d in records && d !in domains :: records[d]
  }

  lemma OutsideUpsert<T>(records: map<string, T>, domains: seq<string>, domain: string, record: T)
    requires domain in domains
    ensures Outside(records[domain := record], domains) == Outside(records, domains)
  {
  }

  /** Nothing but the new instance's own rows and resources has changed. */
  ghost predicate Surroundings(s0: State, s: State) {
    && s.domains == s0.domains && s.authorized == s0.authorized
    && s.shared == s0.shared && s.dedicated == s0.dedicated
    && s.albCertificate.None? && s.previous.None?
    && (forall c :: c in s.insync ==> c < s.nextChange)
    && (forall c :: c in s.changeIds ==> c < s.nextChange)
    && Outside(s.txt, s0.domains) == Outside(s0.txt, s0.domains)
  }

  /** The certificate row of a run that has come this far at least once: n
      challenges answered. */
  ghost predicate RowProgress(s0: State, s: State, kind: Kind, row: Certificate, n: nat)
    requires n <= |s0.domains|
  {
    && row.names == s0.domains
    && (row.order.None? ==> row.challenges == [] && !row.leaf && n == 0)
    && (row.order.Some? ==> row.order == Some(OrderId(s0)) && row.challenges == Challenges(s0, n))
    && (row.leaf ==> row.order.Some? && n == |s0.domains|)
    && (row.arn.Some? ==> row.leaf && row.arn == Some(ArnOf(s0, kind)))
    && s.iam == s0.iam + (if row.arn.Some? then {ArnOf(s0, kind)} else {})
    && s.answers == Sent(s0, n)
    && (forall i :: 0 <= i < n ==> Written(s.txt, OrderId(s0), s0.domains[i]))
  }

  /** Before there is a certificate row. */
  ghost predicate NoKey(s0: State, s: State) {
    && s.pending.None? && s.listener.None?
    && s.certificates == map[] && s.iam == s0.iam && s.answers == []
    && s.nextId == s0.nextId + (if s.user.Some? then 1 else 0)
  }

  /** With a certificate row, n of its challenges answered. */
  ghost predicate HasKey(s0: State, s: State, kind: Kind, n: nat)
    requires n <= |s0.domains|
  {
    var c := CertificateId(s0);
    && s.pending == Some(c) && s.user.Some?
    && s.certificates.Keys == {c}
    && RowProgress(s0, s, kind, s.certificates[c], n)
    && s.nextId == s0.nextId + (if s.certificates[c].order.Some? then 3 else 2)
    && (s.listener.Some? ==> s.certificates[c].arn.Some? && s.listener == Choice(s0, kind))
  }

  /** Before the certificate is put to use. */
  ghost predicate BeforeUse(s0: State, s: State, kind: Kind, n: nat)
    requires n <= |s0.domains|
  {
    && s.current.None? && s.distribution.None? && s.internal.None?
    && s.attached == s0.attached && s.served == s0.served && s.alias == s0.alias
    && (s.user.Some? ==> s.user == Some(UserId(s0)))
    && if s.pending.None? then NoKey(s0, s) && n == 0 else HasKey(s0, s, kind, n)
  }

  /** What the tasks done since the last start have made sure of. */
  ghost predicate Reached(s0: State, s: State, level: nat, n: nat)
    requires n <= |s0.domains|
  {
    && (level >= 1 ==> s.user.Some?)
    && (level >= 2 ==> s.pending == Some(CertificateId(s0)) && CertificateId(s0) in s.certificates)
    && (level >= 3 ==> s.certificates[CertificateId(s0)].order.Some?)
    && (level >= 4 ==> forall i :: n <= i < |s0.domains| ==>
          && Written(s.txt, OrderId(s0), s0.domains[i])
          && (s.txt[s0.domains[i]].change in s.insync || s.txt[s0.domains[i]].change in s.changeIds))
    && (level >= 5 ==> forall i :: n <= i < |s0.domains| ==> s.txt[s0.domains[i]].change in s.insync)
    && (level >= 6 ==> n == |s0.domains|)
    && (level >= 7 ==> s.certificates[CertificateId(s0)].leaf)
    && (level >= 8 ==> s.certificates[CertificateId(s0)].arn.Some?)
    && (level >= 9 ==> s.listener.Some?)
  }

  /** The invariant before the certificate is put to use; n counts the challenges
      answered so far. */
  ghost predicate Progress(s0: State, s: State, kind: Kind, level: nat, n: nat) {
    && Provisions(kind)
    && n <= |s0.domains|
    && Surroundings(s0, s)
    && BeforeUse(s0, s, kind, n)
    && Reached(s0, s, level, n)
  }

  /** The invariant after: all but DNS is as the goal has it. */
  ghost predicate InUseNow(s0: State, s: State, kind: Kind, level: nat) {
    && Placeable(s0, kind)
    && Surroundings(s0, s)
    && MatchesGoal(s0, s, kind)
    && Outside(s.alias, s0.domains) == Outside(s0.alias, s0.domains)
    && (level >= 11 ==> PointedBefore(s0, s, kind, |s0.domains|))
    && (level >= 12 ==> s.changeIds == [])
  }

  /** The record points at the target, by a change that is waited for or done. */
  predicate Points(alias: map<string, Alias>, insync: set<nat>, changeIds: seq<nat>, domain: string, target: Target) {
    && domain in alias
    && alias[domain].target == target
    && (alias[domain].change in insync || alias[domain].change in changeIds)
  }

  /** The first n domains' records point at the goal's target. */
  ghost predicate PointedBefore(s0: State, s: State, kind: Kind, n: nat)
    requires Placeable(s0, kind) && n <= |s0.domains|
  {
    forall i :: 0 <= i < n ==> Points(s.alias, s.insync, s.changeIds, s0.domains[i], GoalTarget(s0, kind))
  }

  /** All but the aliases and the change ids is as in the goal. */
  ghost predicate MatchesGoal(s0: State, s: State, kind: Kind)
    requires Placeable(s0, kind)
  {
    && s.user == Some(UserId(s0)) && s.current == Some(CertificateId(s0)) && s.pending.None?
    && s.listener == Choice(s0, kind)
    && s.distribution == GoalDistribution(s0, kind)
    && s.internal == Some(GoalTarget(s0, kind))
    && s.certificates == map[CertificateId(s0) := GoalRow(s0, kind)]
    && s.iam == s0.iam + {ArnOf(s0, kind)}
    && s.attached == GoalAttached(s0, kind)
    && s.served == GoalServed(s0, kind)
    && Contents(s.txt) == GoalTxts(s0)
    && s.answers == Sent(s0, |s0.domains|)
    && s.nextId == GoalId(s0, kind)
  }

  // ---- each task makes progress or leaves it as it was ----

  /** A task that finds its work done moves the level on and nothing else. */
  lemma Onward(s0: State, s: State, kind: Kind, level: nat, level': nat, n: nat)
    requires Progress(s0, s, kind, level, n) && Reached(s0, s, level', n)
    ensures Progress(s0, s, kind, level', n)
  {
  }

  lemma UserProgress(s0: State, s: State, kind: Kind, n: nat, budget: nat)
    requires Progress(s0, s, kind, 0, n)
    ensures var o := CreateUser(s, budget);
            Progress(s0, o.state, kind, if o.ok then 1 else 0, n)
  {
    if s.user.Some? {
      Onward(s0, s, kind, 0, 1, n);
    } else if budget > 0 {
      var s' := CreateUser(s, budget).state;
      assert NoKey(s0, s');
    }
  }

  lemma KeyProgress(s0: State, s: State, kind: Kind, n: nat, budget: nat)
    requires Progress(s0, s, kind, 1, n)
    ensures var o := GenerateKey(s, budget);
            Progress(s0, o.state, kind, if o.ok then 2 else 1, n)
  {
    if s.pending.Some? {
      Onward(s0, s, kind, 1, 2, n);
    } else if budget > 0 {
      var s' := GenerateKey(s, budget).state;
      assert s'.certificates.Keys == {CertificateId(s0)};
      assert s'.iam == s0.iam + {};
      assert HasKey(s0, s', kind, n);
    }
  }

  /** The invariant from the parts that a filled-in row can change. */
  lemma RowStep(s0: State, s: State, s': State, kind: Kind, level: nat, level': nat, n: nat, n': nat)
    requires Progress(s0, s, kind, level, n) && level >= 2 && n' <= |s0.domains|
    requires CertificateId(s0) in s'.certificates
    requires var row := s'.certificates[CertificateId(s0)];
             && s' == s.(certificates := s.certificates[CertificateId(s0) := row], iam := s'.iam,
                         answers := s'.answers, nextId := s'.nextId)
             && RowProgress(s0, s', kind, row, n')
             && s'.nextId == s0.nextId + (if row.order.Some? then 3 else 2)
             && (s.listener.Some? ==> row.arn.Some?)
    requires Reached(s0, s', level', n')
    ensures Progress(s0, s', kind, level', n')
  {
    assert s'.certificates.Keys == s.certificates.Keys;
  }

  lemma NoneAnswered(s0: State)
    ensures NewChallenges(OrderId(s0), s0.authorized, s0.domains) == Challenges(s0, 0)
  {
  }

  /** A new order is for the domains of the instance: a challenge for each, in their order,
      open, with the contents that this order expects, and marked as valid already exactly
      for the domains the authority has authorized. Nothing else changes. */
  lemma OrderIsExact(s: State, budget: nat)
    requires InitiateChallenges(s, budget).state != s
    ensures var s' := InitiateChallenges(s, budget).state;
            && s.pending.Some? && s.pending.value in s.certificates && s.certificates[s.pending.value].order.None?
            && var row := s'.certificates[s.pending.value];
               && s' == s.(certificates := s.certificates[s.pending.value := row], nextId := s.nextId + 1)
               && row == s.certificates[s.pending.value].(order := Some(s.nextId), challenges := row.challenges)
               && |row.challenges| == |s.domains|
               && forall i :: 0 <= i < |s.domains| ==>
                    var c := row.challenges[i];
                    && c.domain == s.domains[i] && c.domain in row.names && !c.answered
                    && c.contents == Token(s.nextId, s.domains[i])
                    && (c.alreadyValid <==> s.domains[i] in s.authorized)
  {
  }

  lemma OrderProgress(s0: State, s: State, kind: Kind, n: nat, budget: nat)
    requires Progress(s0, s, kind, 2, n)
    ensures var o := InitiateChallenges(s, budget);
            Progress(s0, o.state, kind, if o.ok then 3 else 2, n)
  {
    var o := InitiateChallenges(s, budget);
    if o.state == s {
      if o.ok { Onward(s0, s, kind, 2, 3, n); }
    } else {
      NoneAnswered(s0);
      RowStep(s0, s, o.state, kind, 2, 3, n, n);
    }
  }

  lemma TxtOne(s0: State, s: State, kind: Kind, n: nat, i: nat)
    requires Progress(s0, s, kind, 3, n) && n <= i < |s0.domains|
    ensures Progress(s0, UpsertTxt(s, Challenges(s0, n)[i]), kind, 3, n)
  {
    var s' := UpsertTxt(s, Challenges(s0, n)[i]);
    OutsideUpsert(s.txt, s0.domains, s0.domains[i], s'.txt[s0.domains[i]]);
    assert s'.changeIds[|s.changeIds|] == s.nextChange;
    assert RowProgress(s0, s', kind, s.certificates[CertificateId(s0)], n);
  }

  /** The records of challenges n to i are written and their changes stored. */
  ghost predicate Stored(s0: State, s: State, n: nat, i: nat)
    requires i <= |s0.domains|
  {
    forall j :: n <= j < i ==> Written(s.txt, OrderId(s0), s0.domains[j]) && s.txt[s0.domains[j]].change in s.changeIds
  }

  lemma StoredOne(s0: State, s: State, n: nat, i: nat)
    requires n <= i < |s0.domains| && Stored(s0, s, n, i)
    ensures Stored(s0, UpsertTxt(s, Challenges(s0, n)[i]), n, i + 1)
  {
    var s' := UpsertTxt(s, Challenges(s0, n)[i]);
    assert s'.changeIds[|s.changeIds|] == s.nextChange;
  }

  /** The TXT loop, from challenge i on. */
  lemma {:induction false} TxtLoop(s0: State, s: State, kind: Kind, n: nat, i: nat, budget: nat)
    requires Progress(s0, s, kind, 3, n) && n <= i <= |s0.domains| && Stored(s0, s, n, i)
    ensures var o := UpsertTxts(s, Challenges(s0, n)[i..], budget);
            Progress(s0, o.state, kind, if o.ok then 4 else 3, n)
    decreases |s0.domains| - i
  {
    var todo := Challenges(s0, n)[i..];
    if i == |s0.domains| {
      Onward(s0, s, kind, 3, 4, n);
    } else {
      assert todo[0] == Challenges(s0, n)[i];
      assert todo[1..] == Challenges(s0, n)[i + 1..];
      if budget > 0 {
        TxtOne(s0, s, kind, n, i);
        StoredOne(s0, s, n, i);
        TxtLoop(s0, UpsertTxt(s, todo[0]), kind, n, i + 1, budget - 1);
      }
    }
  }

  /** Answered challenges come first, and the loop skips them. */
  lemma {:induction false} TxtSkips(s0: State, s: State, n: nat, i: nat, budget: nat)
    requires i <= n <= |s0.domains|
    ensures UpsertTxts(s, Challenges(s0, n)[i..], budget) == UpsertTxts(s, Challenges(s0, n)[n..], budget)
    decreases n - i
  {
    if i < n {
      assert Challenges(s0, n)[i..][0] == Challenges(s0, n)[i];
      assert Challenges(s0, n)[i..][1..] == Challenges(s0, n)[i + 1..];
      TxtSkips(s0, s, n, i + 1, budget);
    }
  }

  lemma TxtProgress(s0: State, s: State, kind: Kind, n: nat, budget: nat)
    requires Progress(s0, s, kind, 3, n)
    ensures var o := CreateTxtRecords(s, budget);
            Progress(s0, o.state, kind, if o.ok then 4 else 3, n)
  {
    assert Challenges(s0, n)[0..] == Challenges(s0, n);
    TxtSkips(s0, s, n, 0, budget);
    TxtLoop(s0, s, kind, n, n, budget);
  }

  lemma {:induction false} WaitProgress(s0: State, s: State, kind: Kind, n: nat, budget: nat)
    requires Progress(s0, s, kind, 4, n)
    ensures var o := WaitForChanges(s, budget);
            Progress(s0, o.state, kind, if o.ok then 5 else 4, n)
    decreases |s.changeIds|
  {
    if s.changeIds != [] && budget > 0 {
      var s' := WaitOne(s);
      assert s.changeIds[0] in s.changeIds;
      assert forall c :: c in s'.changeIds ==> c in s.changeIds;
      assert forall c :: c in s.changeIds ==> c == s.changeIds[0] || c in s'.changeIds;
      WaitProgress(s0, s', kind, n, budget - 1);
    }
  }

  lemma {:induction false} AnswerSkips(s0: State, s: State, n: nat, i: nat, budget: nat)
    requires CertificateId(s0) in s.certificates && s.certificates[CertificateId(s0)].challenges == Challenges(s0, n)
    requires i <= n <= |s0.domains|
    ensures AnswerFrom(s, CertificateId(s0), i, budget) == AnswerFrom(s, CertificateId(s0), n, budget)
    decreases n - i
  {
    if i < n {
      AnswerSkips(s0, s, n, i + 1, budget);
    }
  }

  lemma RowOf(s0: State, s: State, kind: Kind, level: nat, n: nat)
    requires 3 <= level && Progress(s0, s, kind, level, n)
    ensures n <= |s0.domains|
    ensures CertificateId(s0) in s.certificates
    ensures s.certificates[CertificateId(s0)].challenges == Challenges(s0, n)
    ensures s.pending == Some(CertificateId(s0))
  {
  }

  lemma AllAnsweredOnward(s0: State, s: State, kind: Kind)
    requires Progress(s0, s, kind, 5, |s0.domains|)
    ensures Progress(s0, s, kind, 6, |s0.domains|)
  {
  }

  /** The answering loop, from the first challenge not answered yet. */
  lemma {:induction false} AnswerLoop(s0: State, s: State, kind: Kind, n: nat, budget: nat) returns (n': nat)
    requires Progress(s0, s, kind, 5, n)
    ensures CertificateId(s0) in s.certificates && n <= |s.certificates[CertificateId(s0)].challenges|
    ensures var o := AnswerFrom(s, CertificateId(s0), n, budget);
            Progress(s0, o.state, kind, if o.ok then 6 else 5, n')
    decreases |s0.domains| - n
  {
    hide Progress, AnswerOne;
    n' := n;
    RowOf(s0, s, kind, 5, n);
    if n == |s0.domains| {
      AllAnsweredOnward(s0, s, kind);
    } else if budget > 0 {
      AnswerOneProgress(s0, s, kind, n);
      n' := AnswerLoop(s0, AnswerOne(s, CertificateId(s0), n), kind, n + 1, budget - 1);
    }
  }

  /** A challenge is answered only when its record is live. */
  lemma AnswerOneProgress(s0: State, s: State, kind: Kind, n: nat)
    requires Progress(s0, s, kind, 5, n) && n < |s0.domains|
    ensures CertificateId(s0) in s.certificates && s.certificates[CertificateId(s0)].challenges == Challenges(s0, n)
    ensures Live(s, Challenges(s0, n)[n])
    ensures Progress(s0, AnswerOne(s, CertificateId(s0), n), kind, 5, n + 1)
  {
    var id := CertificateId(s0);
    var s' := AnswerOne(s, id, n);
    assert Written(s.txt, OrderId(s0), s0.domains[n]);
    assert s'.certificates[id].challenges == Challenges(s0, n + 1);
    RowStep(s0, s, s', kind, 5, 5, n, n + 1);
  }

  lemma AnswerProgress(s0: State, s: State, kind: Kind, n: nat, budget: nat) returns (n': nat)
    requires Progress(s0, s, kind, 5, n)
    ensures var o := AnswerChallenges(s, budget);
            Progress(s0, o.state, kind, if o.ok then 6 else 5, n')
  {
    RowOf(s0, s, kind, 5, n);
    AnswerSkips(s0, s, n, 0, budget);
    n' := AnswerLoop(s0, s, kind, n, budget);
  }

  lemma RetrieveProgress(s0: State, s: State, kind: Kind, n: nat, budget: nat)
    requires Progress(s0, s, kind, 6, n)
    ensures var o := RetrieveCertificate(s, budget);
            Progress(s0, o.state, kind, if o.ok then 7 else 6, n)
  {
    var o := RetrieveCertificate(s, budget);
    if o.state == s {
      if o.ok { Onward(s0, s, kind, 6, 7, n); }
    } else {
      RowStep(s0, s, o.state, kind, 6, 7, n, n);
    }
  }

  lemma UploadProgress(s0: State, s: State, kind: Kind, n: nat, budget: nat)
    requires Progress(s0, s, kind, 7, n)
    ensures var o := UploadServerCertificate(s, PartitionOf(kind), budget);
            Progress(s0, o.state, kind, if o.ok then 8 else 7, n)
  {
    var o := UploadServerCertificate(s, PartitionOf(kind), budget);
    if o.state == s {
      if o.ok { Onward(s0, s, kind, 7, 8, n); }
    } else {
      RowStep(s0, s, o.state, kind, 7, 8, n, n);
    }
  }

  /** A listener chosen before a restart is kept. */
  lemma SelectProgress(s0: State, s: State, kind: Kind, n: nat, budget: nat)
    requires Progress(s0, s, kind, 8, n) && !ToDistribution(kind)
    ensures var o := SelectFrom(s, Listeners(s0, kind), true, budget);
            Progress(s0, o.state, kind, if o.ok then 9 else 8, n)
  {
    var o := SelectFrom(s, Listeners(s0, kind), true, budget);
    if s.listener.Some? {
      Onward(s0, s, kind, 8, 9, n);
    } else if o.ok {
      assert HasKey(s0, o.state, kind, n);
    }
  }

  /** In use: the row is the goal's, and so are the records of its challenges. */
  lemma RowIsGoal(s0: State, s: State, kind: Kind, level: nat, n: nat)
    requires 8 <= level <= 9 && Progress(s0, s, kind, level, n)
    ensures s.certificates == map[CertificateId(s0) := GoalRow(s0, kind)]
    ensures s.answers == Sent(s0, |s0.domains|)
    ensures s.iam == s0.iam + {ArnOf(s0, kind)}
    ensures s.nextId == s0.nextId + 3
  {
    assert s.certificates[CertificateId(s0)] == GoalRow(s0, kind);
    assert s.certificates == map[CertificateId(s0) := GoalRow(s0, kind)];
  }

  lemma WrittenIsGoal(s0: State, txt: map<string, Txt>)
    requires Outside(txt, s0.domains) == Outside(s0.txt, s0.domains)
    requires forall i :: 0 <= i < |s0.domains| ==> Written(txt, OrderId(s0), s0.domains[i])
    ensures Contents(txt) == GoalTxts(s0)
  {
    forall d | d in s0.domains ensures Written(txt, OrderId(s0), d) {
      var i :| 0 <= i < |s0.domains| && s0.domains[i] == d;
    }
    forall d | d !in s0.domains
      ensures (d in txt <==> d in s0.txt) && (d in txt ==> txt[d] == s0.txt[d])
    {
      assert d in txt <==> d in Outside(txt, s0.domains);
      assert d in s0.txt <==> d in Outside(s0.txt, s0.domains);
    }
  }

  lemma TxtsAreGoal(s0: State, s: State, kind: Kind, level: nat, n: nat)
    requires 8 <= level <= 9 && Progress(s0, s, kind, level, n)
    ensures Contents(s.txt) == GoalTxts(s0)
  {
    WrittenIsGoal(s0, s.txt);
  }

  lemma AddProgress(s0: State, s: State, kind: Kind, n: nat, budget: nat)
    requires New(s0) && Progress(s0, s, kind, 9, n) && !ToDistribution(kind)
    ensures var o := AddCertificateToAlb(s, budget);
            if o.ok then InUseNow(s0, o.state, kind, 10) else Progress(s0, o.state, kind, 9, n)
  {
    var o := AddCertificateToAlb(s, budget);
    if o.ok {
      RowIsGoal(s0, s, kind, 9, n);
      TxtsAreGoal(s0, s, kind, 9, n);
      assert o.state.attached == GoalAttached(s0, kind);
      assert MatchesGoal(s0, o.state, kind);
    }
  }

  /** What the distribution step leaves, against the goal. */
  lemma DistributionMatches(s0: State, s: State, kind: Kind, n: nat, s': State)
    requires New(s0) && Progress(s0, s, kind, 8, n) && ToDistribution(kind)
    requires s' == Promote(s.(served := map[s.nextId := ArnOf(s0, kind)], distribution := Some(s.nextId),
                              internal := Some(Distribution(s.nextId)), nextId := s.nextId + 1))
    ensures MatchesGoal(s0, s', kind)
  {
    RowIsGoal(s0, s, kind, 8, n);
    TxtsAreGoal(s0, s, kind, 8, n);
  }

  lemma CreateDistributionProgress(s0: State, s: State, kind: Kind, n: nat, budget: nat)
    requires New(s0) && Progress(s0, s, kind, 8, n) && ToDistribution(kind)
    ensures var o := CreateDistribution(s, budget);
            if o.ok then InUseNow(s0, o.state, kind, 10) else Progress(s0, o.state, kind, 8, n)
  {
    var o := CreateDistribution(s, budget);
    if o.ok {
      RowIsGoal(s0, s, kind, 8, n);
      assert s.served[s.nextId := ArnOf(s0, kind)] == map[s.nextId := ArnOf(s0, kind)];
      DistributionMatches(s0, s, kind, n, o.state);
    }
  }

  /** An UPSERT touches nothing of the observation but aliases and change ids. */
  lemma UpsertMatches(s0: State, s: State, kind: Kind, domain: string, target: Target)
    requires Placeable(s0, kind) && MatchesGoal(s0, s, kind)
    ensures MatchesGoal(s0, UpsertAlias(s, domain, target), kind)
  {
  }

  lemma AliasOne(s0: State, s: State, kind: Kind, domain: string)
    requires InUseNow(s0, s, kind, 10) && domain in s0.domains
    ensures InUseNow(s0, UpsertAlias(s, domain, GoalTarget(s0, kind)), kind, 10)
    ensures s.internal == Some(GoalTarget(s0, kind))
  {
    var s' := UpsertAlias(s, domain, GoalTarget(s0, kind));
    OutsideUpsert(s.alias, s0.domains, domain, s'.alias[domain]);
    UpsertMatches(s0, s, kind, domain, GoalTarget(s0, kind));
    assert s'.changeIds[|s.changeIds|] == s.nextChange;
  }

  lemma PointedOne(s0: State, s: State, kind: Kind, i: nat)
    requires Placeable(s0, kind) && i < |s0.domains| && PointedBefore(s0, s, kind, i)
    ensures PointedBefore(s0, UpsertAlias(s, s0.domains[i], GoalTarget(s0, kind)), kind, i + 1)
  {
    var s' := UpsertAlias(s, s0.domains[i], GoalTarget(s0, kind));
    assert s'.changeIds[|s.changeIds|] == s.nextChange;
    assert forall c :: c in s.changeIds ==> c in s'.changeIds;
  }

  lemma AllPointed(s0: State, s: State, kind: Kind)
    requires InUseNow(s0, s, kind, 10) && PointedBefore(s0, s, kind, |s0.domains|)
    ensures InUseNow(s0, s, kind, 11)
  {
  }

  lemma {:induction false} AliasLoop(s0: State, s: State, kind: Kind, i: nat, budget: nat)
    requires InUseNow(s0, s, kind, 10) && i <= |s0.domains|
    requires PointedBefore(s0, s, kind, i)
    ensures var o := UpsertAliases(s, s0.domains[i..], budget);
            InUseNow(s0, o.state, kind, if o.ok then 11 else 10)
    decreases |s0.domains| - i
  {
    hide InUseNow, PointedBefore, UpsertAlias;
    if i == |s0.domains| {
      AllPointed(s0, s, kind);
    } else {
      assert s0.domains[i..][1..] == s0.domains[i + 1..];
      if budget > 0 {
        AliasOne(s0, s, kind, s0.domains[i]);
        PointedOne(s0, s, kind, i);
        AliasLoop(s0, UpsertAlias(s, s0.domains[i], GoalTarget(s0, kind)), kind, i + 1, budget - 1);
      }
    }
  }

  lemma AliasProgress(s0: State, s: State, kind: Kind, budget: nat)
    requires InUseNow(s0, s, kind, 10)
    ensures var o := CreateAliasRecords(s, budget);
            InUseNow(s0, o.state, kind, if o.ok then 11 else 10)
  {
    assert s0.domains[0..] == s0.domains;
    AliasLoop(s0, s, kind, 0, budget);
  }

  lemma FinalWaitOne(s0: State, s: State, kind: Kind)
    requires InUseNow(s0, s, kind, 11) && s.changeIds != []
    ensures InUseNow(s0, WaitOne(s), kind, 11)
  {
    var s' := WaitOne(s);
    assert s.changeIds[0] in s.changeIds;
    assert forall c :: c in s'.changeIds ==> c in s.changeIds;
    assert forall c :: c in s.changeIds ==> c == s.changeIds[0] || c in s'.changeIds;
  }

  lemma NothingToWaitFor(s0: State, s: State, kind: Kind)
    requires InUseNow(s0, s, kind, 11) && s.changeIds == []
    ensures InUseNow(s0, s, kind, 12)
  {
  }

  lemma {:induction false} FinalWait(s0: State, s: State, kind: Kind, budget: nat)
    requires InUseNow(s0, s, kind, 11)
    ensures var o := WaitForChanges(s, budget);
            InUseNow(s0, o.state, kind, if o.ok then 12 else 11)
    decreases |s.changeIds|
  {
    hide InUseNow;
    if s.changeIds == [] {
      NothingToWaitFor(s0, s, kind);
    } else if budget > 0 {
      FinalWaitOne(s0, s, kind);
      FinalWait(s0, WaitOne(s), kind, budget - 1);
    }
  }
}
