/**
  What the tasks with loops leave alone: each changes only the parts of the state that
  its calls and commits are about, wherever it stops.
 */
module Frames {
  import opened Records
  import opened Tasks
  import opened Pipelines

  lemma {:induction false} TxtFrame(s: State, todo: seq<Challenge>, budget: nat)
    ensures var s' := UpsertTxts(s, todo, budget).state;
            s' == s.(txt := s'.txt, changeIds := s'.changeIds, nextChange := s'.nextChange)
    decreases |todo|
  {
    if todo == [] {
    } else if todo[0].answered {
      TxtFrame(s, todo[1..], budget);
    } else if budget > 0 {
      TxtFrame(UpsertTxt(s, todo[0]), todo[1..], budget - 1);
    }
  }

  lemma {:induction false} WaitFrame(s: State, budget: nat)
    ensures var s' := WaitForChanges(s, budget).state; s' == s.(changeIds := s'.changeIds, insync := s'.insync)
    decreases |s.changeIds|
  {
    if s.changeIds != [] && budget > 0 { WaitFrame(WaitOne(s), budget - 1); }
  }

  lemma {:induction false} RemovalFrame(s: State, todo: seq<Challenge>)
    ensures var s' := DeleteOlds(s, todo); s' == s.(txt := s'.txt, alias := s'.alias)
    decreases |todo|
  {
    if todo == [] {
    } else if todo[0].domain in s.domains {
      RemovalFrame(s, todo[1..]);
    } else {
      RemovalFrame(DeleteOldRecords(s, todo[0]), todo[1..]);
    }
  }

  lemma {:induction false} AliasFrame(s: State, todo: seq<string>, budget: nat)
    ensures var s' := UpsertAliases(s, todo, budget).state;
            s' == s.(alias := s'.alias, changeIds := s'.changeIds, nextChange := s'.nextChange)
    decreases |todo|
  {
    if todo != [] && budget > 0 && s.internal.Some? {
      AliasFrame(UpsertAlias(s, todo[0], s.internal.value), todo[1..], budget - 1);
    }
  }

  lemma {:induction false} AnswerFrame(s: State, id: nat, i: nat, budget: nat)
    requires id in s.certificates && i <= |s.certificates[id].challenges|
    ensures var s' := AnswerFrom(s, id, i, budget).state;
            s' == s.(certificates := s'.certificates, answers := s'.answers)
    decreases |s.certificates[id].challenges| - i
  {
    if i < |s.certificates[id].challenges| {
      if s.certificates[id].challenges[i].answered {
        AnswerFrame(s, id, i + 1, budget);
      } else if budget > 0 {
        AnswerFrame(AnswerOne(s, id, i), id, i + 1, budget - 1);
      }
    }
  }

  /** Deleting from IAM touches no certificate but those of the rows given. */
  lemma {:induction false} DeletionFrame(s: State, p: Partition, todo: seq<nat>, budget: nat)
    requires forall id :: id in todo ==> id in s.certificates
    ensures var s' := DeleteFromIam(s, p, todo, budget).state;
            && s' == s.(iam := s'.iam)
            && forall a :: a in s.iam && (a.Own? ==> a.certificate !in todo) ==> a in s'.iam
    decreases |todo|
  {
    if todo != [] {
      var arn := Own(p, todo[0]);
      if budget > 0 && s.certificates[todo[0]].arn.Some? && !(arn in s.iam && InUse(s, arn)) {
        DeletionFrame(s.(iam := s.iam - {arn}), p, todo[1..], budget - 1);
      }
    }
  }

  predicate Loops(t: Task) {
    || t.CreateTxtTask? || t.WaitForChangesTask? || t.RemoveOldDnsTask? || t.CreateAliasTask?
    || t.AnswerChallengesTask? || t.DeletePreviousTask?
  }

  /** None of these touches a column of the row but its change ids, or what serves. */
  lemma LoopFrame(t: Task, provisioning: bool, s: State, budget: nat)
    requires Loops(t)
    ensures var s' := Execute(t, provisioning, s, budget).state;
            s' == s.(txt := s'.txt, alias := s'.alias, changeIds := s'.changeIds, nextChange := s'.nextChange,
                     insync := s'.insync, certificates := s'.certificates, answers := s'.answers, iam := s'.iam)
  {
    hide UpsertTxts, WaitForChanges, DeleteOlds, UpsertAliases, AnswerFrom, DeleteFromIam, Others, Ascending;
    match t {
      case CreateTxtTask =>
        if s.pending.Some? && s.pending.value in s.certificates {
          TxtFrame(s, s.certificates[s.pending.value].challenges, budget);
        }
      case WaitForChangesTask => WaitFrame(s, budget);
      case RemoveOldDnsTask =>
        if s.current.Some? && s.current.value in s.certificates {
          RemovalFrame(s, s.certificates[s.current.value].challenges);
        }
      case CreateAliasTask => AliasFrame(s, s.domains, budget);
      case AnswerChallengesTask =>
        if s.pending.Some? && s.pending.value in s.certificates { AnswerFrame(s, s.pending.value, 0, budget); }
      case DeletePreviousTask(p) => DeletionFrame(s, p, Ascending(Others(s)), budget);
    }
  }

  predicate FillsIn(t: Task) {
    || t.CreateUserTask? || t.GenerateKeyTask? || t.InitiateChallengesTask?
    || t.RetrieveCertificateTask? || t.UploadTask?
  }

  lemma FillingFrame(t: Task, provisioning: bool, s: State, budget: nat)
    requires FillsIn(t)
    ensures var s' := Execute(t, provisioning, s, budget).state;
            s' == s.(user := s'.user, pending := s'.pending, certificates := s'.certificates, iam := s'.iam,
                     nextId := s'.nextId)
  {
    hide NewChallenges;
  }

  predicate Promotes(t: Task) {
    t.AddCertificateToAlbTask? || t.CreateDistributionTask? || t.UpdateDistributionTask? || t.UpdateCertificateTask?
  }

  lemma PromotionFrame(t: Task, provisioning: bool, s: State, budget: nat)
    requires Promotes(t)
    ensures var o := Execute(t, provisioning, s, budget);
            && o.state == s.(current := o.state.current, pending := o.state.pending, internal := o.state.internal,
                             distribution := o.state.distribution, attached := o.state.attached,
                             served := o.state.served, nextId := o.state.nextId)
            && (!o.ok ==> o.state == s)
  {
    hide Usable;
  }

  lemma ChoiceFrame(s: State, listeners: seq<Listener>, provisioning: bool, budget: nat)
    ensures var s' := SelectFrom(s, listeners, provisioning, budget).state;
            s' == s.(listener := s'.listener, previous := s'.previous)
  {
    hide Lowest;
  }

  lemma SelectionFrame(t: Task, provisioning: bool, s: State, budget: nat)
    requires t.SelectAlbTask? || t.SelectDedicatedAlbTask?
    ensures var s' := Execute(t, provisioning, s, budget).state;
            s' == s.(listener := s'.listener, previous := s'.previous)
  {
    hide SelectFrom;
    ChoiceFrame(s, s.shared, provisioning, budget);
    ChoiceFrame(s, s.dedicated, provisioning, budget);
  }

  /** What is left takes certificates off listeners, remembers one, or does nothing. */
  lemma RetiringFrame(t: Task, provisioning: bool, s: State, budget: nat)
    requires !Loops(t) && !FillsIn(t) && !Promotes(t) && !t.SelectAlbTask? && !t.SelectDedicatedAlbTask?
    ensures var s' := Execute(t, provisioning, s, budget).state;
            s' == s.(albCertificate := s'.albCertificate, previous := s'.previous, attached := s'.attached)
  {
    hide Others, Ascending;
  }

  /** No other task touches domains, DNS or answers. */
  lemma OtherFrame(t: Task, provisioning: bool, s: State, budget: nat)
    requires !Loops(t)
    ensures var s' := Execute(t, provisioning, s, budget).state;
            && s'.domains == s.domains && s'.changeIds == s.changeIds && s'.alias == s.alias && s'.txt == s.txt
            && s'.insync == s.insync && s'.answers == s.answers && s'.nextChange == s.nextChange
            && s'.shared == s.shared && s'.dedicated == s.dedicated && s'.authorized == s.authorized
  {
    hide Execute;
    if FillsIn(t) {
      FillingFrame(t, provisioning, s, budget);
    } else if Promotes(t) {
      PromotionFrame(t, provisioning, s, budget);
    } else if t.SelectAlbTask? || t.SelectDedicatedAlbTask? {
      SelectionFrame(t, provisioning, s, budget);
    } else {
      RetiringFrame(t, provisioning, s, budget);
    }
  }
}
