/**
  Draining the stored DNS change ids. Whenever a wait stops, what is stored is
  exactly the part of the list not waited for yet, duplicates included; retries
  take it from there until nothing is left, and wait for every id.
 */
module ChangeIds {
  import opened Records
  import opened Tasks

  function Elements(ids: seq<nat>): set<nat> {
    set c | c in ids
  }

  function Min(a: nat, b: nat): nat {
    if a <= b then a else b
  }

  /** The state in which a wait for the first k ids leaves the instance. */
  function Drained(s: State, k: nat): State
    requires k <= |s.changeIds|
  {
    s.(changeIds := s.changeIds[k..], insync := s.insync + Elements(s.changeIds[..k]))
  }

  /** A wait that fails at the k-th id has committed the suffix that starts there. */
  lemma {:induction false} WaitStoresTheSuffix(s: State, budget: nat)
    ensures var o := WaitForChanges(s, budget);
            && o.state == Drained(s, Min(budget, |s.changeIds|))
            && (o.ok <==> |s.changeIds| <= budget)
    decreases |s.changeIds|
  {
    var ids := s.changeIds;
    if ids == [] || budget == 0 {
      assert s.insync + Elements(ids[..0]) == s.insync;
    } else {
      var k := Min(budget, |ids|);
      WaitStoresTheSuffix(WaitOne(s), budget - 1);
      assert ids[1..][k - 1..] == ids[k..];
      assert [ids[0]] + ids[1..][..k - 1] == ids[..k];
      assert s.insync + {ids[0]} + Elements(ids[1..][..k - 1]) == s.insync + Elements(ids[..k]);
    }
  }

  /** One try after another, each with the number of calls that succeed. */
  function Retried(s: State, budgets: seq<nat>): State
    decreases |budgets|
  {
    if budgets == [] then s else Retried(WaitForChanges(s, budgets[0]).state, budgets[1..])
  }

  function Sum(budgets: seq<nat>): nat {
    if budgets == [] then 0 else budgets[0] + Sum(budgets[1..])
  }

  lemma DrainedTwice(s: State, k: nat, m: nat)
    requires k + m <= |s.changeIds|
    ensures m <= |Drained(s, k).changeIds| && Drained(Drained(s, k), m) == Drained(s, k + m)
  {
    var ids := s.changeIds;
    assert ids[k..][m..] == ids[k + m..];
    assert ids[..k] + ids[k..][..m] == ids[..k + m];
    assert Elements(ids[..k]) + Elements(ids[k..][..m]) == Elements(ids[..k + m]);
    assert s.insync + Elements(ids[..k]) + Elements(ids[k..][..m]) == s.insync + Elements(ids[..k + m]);
  }

  lemma NothingDrained(s: State)
    ensures Drained(s, 0) == s
  {
    assert s.insync + Elements(s.changeIds[..0]) == s.insync;
  }

  /** However the failures fall, retries wait for the ids in order, each once. */
  lemma {:induction false} RetriesDrain(s: State, budgets: seq<nat>)
    ensures Retried(s, budgets) == Drained(s, Min(Sum(budgets), |s.changeIds|))
    decreases |budgets|
  {
    hide Elements, WaitForChanges;
    if budgets == [] {
      NothingDrained(s);
    } else {
      var k := Min(budgets[0], |s.changeIds|);
      WaitStoresTheSuffix(s, budgets[0]);
      RetriesDrain(Drained(s, k), budgets[1..]);
      DrainedTwice(s, k, Min(Sum(budgets), |s.changeIds|) - k);
    }
  }

  /** Enough calls in all: every id was waited for and nothing stays stored. */
  lemma RetriesFinish(s: State, budgets: seq<nat>)
    requires |s.changeIds| <= Sum(budgets)
    ensures var s' := Retried(s, budgets);
            && s'.changeIds == []
            && forall c :: c in s.changeIds ==> c in s'.insync
  {
    RetriesDrain(s, budgets);
    assert s.changeIds[..|s.changeIds|] == s.changeIds;
  }
}
