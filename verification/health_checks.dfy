/**
  Reconciling health checks, their alarms and the Shield association with the
  domains of an instance: the steps as functions, and what a whole run of them
  leaves, whatever the instance had before.

  AWS hands out fresh check ids; an alarm is named after the check it watches. A check is
  asked for under a caller reference, which stays taken: asked again, Route 53 answers
  with the check it made, if that is there and for the same domain, and refuses otherwise
  (CreateHealthCheck, "CallerReference").
 */
module HealthChecks {
  import opened Wrappers
  import opened Strings

  datatype Check = Check(domain: string, id: nat)

  datatype State = State(
    // the instance row
    domains: seq<string>,
    checks: Option<seq<Check>>,
    associated: Option<Check>,
    alarms: Option<seq<nat>>,
    topic: bool,
    // AWS: the checks, what was made under the instance's caller references, by their
    // index, the check the distribution's protection is associated with, and the checks
    // that have an alarm
    health: map<nat, string>,
    references: map<nat, Check>,
    isProtected: bool,
    shielded: Option<nat>,
    alarmed: set<nat>,
    nextId: nat)

  function Recorded(s: State): seq<Check> {
    if s.checks.Some? then s.checks.value else []
  }

  predicate Has(checks: seq<Check>, domain: string) {
    exists c :: c in checks && c.domain == domain
  }

  function Ids(checks: seq<Check>): set<nat> {
    set c | c in checks :: c.id
  }

  // ---- broker/tasks/route53.py ----

  /** The domains without a check, as often as they are listed. */
  function Unchecked(domains: seq<string>, checks: seq<Check>): seq<string> {
    if domains == [] then []
    else if Has(checks, domains[0]) then Unchecked(domains[1..], checks)
    else [domains[0]] + Unchecked(domains[1..], checks)
  }

  /** Stable, by domain. */
  function Insert(c: Check, sorted: seq<Check>): (r: seq<Check>)
    ensures multiset(r) == multiset(sorted) + multiset{c}
  {
    if sorted == [] || StringLeq(c.domain, sorted[0].domain) then [c] + sorted
    else
      assert sorted == [sorted[0]] + sorted[1..];
      [sorted[0]] + Insert(c, sorted[1..])
  }

  function ByDomain(checks: seq<Check>): (r: seq<Check>)
    ensures multiset(r) == multiset(checks)
  {
    if checks == [] then []
    else
      assert checks == [checks[0]] + checks[1..];
      Insert(checks[0], ByDomain(checks[1..]))
  }

  /** The check that Route 53 answers with; None when it refuses. */
  function Made(s: State, index: nat, domain: string): Option<Check> {
    if index !in s.references then Some(Check(domain, s.nextId))
    else if s.references[index].domain == domain && s.references[index].id in s.health then Some(s.references[index])
    else None
  }

  /** One call, under the caller reference with this index. */
  function Create(s: State, index: nat, domain: string): Option<State> {
    var made := Made(s, index, domain);
    if made.None? then None
    else
      var s' := s.(checks := Some(Recorded(s) + [made.value]));
      Some(if index in s.references then s'
           else s'.(health := s.health[s.nextId := domain],
                    references := s.references[index := made.value],
                    nextId := s.nextId + 1))
  }

  /** The indices count up from the one given. */
  function CreateAll(s: State, domains: seq<string>, index: nat): Option<State>
    decreases |domains|
  {
    if domains == [] then Some(s)
    else
      var s' := Create(s, index, domains[0]);
      if s'.None? then None else CreateAll(s'.value, domains[1..], index + 1)
  }

  /** On every call of the task they count from 0; None when it raises. */
  function CreateNew(s: State): Option<State> {
    var todo := Unchecked(s.domains, Recorded(s));
    if todo == [] then Some(s)
    else
      var s' := CreateAll(s, todo, 0);
      if s'.None? then None else Some(s'.value.(checks := Some(ByDomain(Recorded(s'.value)))))
  }

  function Unwanted(checks: seq<Check>, domains: seq<string>): seq<Check> {
    if checks == [] then []
    else if checks[0].domain in domains then Unwanted(checks[1..], domains)
    else [checks[0]] + Unwanted(checks[1..], domains)
  }

  function WithoutId(checks: seq<Check>, id: nat): seq<Check> {
    if checks == [] then []
    else if checks[0].id == id then WithoutId(checks[1..], id)
    else [checks[0]] + WithoutId(checks[1..], id)
  }

  /** Delete the checks one by one, by id, from AWS and from the list. */
  function DeleteAll(s: State, todo: seq<Check>): State
    decreases |todo|
  {
    if todo == [] then s
    else DeleteAll(s.(health := s.health - {todo[0].id}, checks := Some(WithoutId(Recorded(s), todo[0].id))), todo[1..])
  }

  function DeleteUnused(s: State): State {
    DeleteAll(s, Unwanted(Recorded(s), s.domains))
  }

  // ---- broker/tasks/shield.py ----

  /** The first check for one of the domains. */
  function FirstWanted(checks: seq<Check>, domains: seq<string>): Option<Check> {
    if checks == [] then None
    else if checks[0].domain in domains then Some(checks[0])
    else FirstWanted(checks[1..], domains)
  }

  /** The provisioning step; it needs a protection even with nothing to associate. */
  function Associate(s: State): Option<State> {
    if !s.isProtected then None
    else if Recorded(s) == [] then Some(s)
    else Some(s.(associated := Some(Recorded(s)[0]), shielded := Some(Recorded(s)[0].id)))
  }

  function UpdateAssociated(s: State): Option<State> {
    var s1 := if s.associated.Some? && s.associated.value.domain !in s.domains
    then s.(associated := None, shielded := None) else s;
    var first := FirstWanted(Recorded(s), s.domains);
    if s1.associated.Some? || first.None? then Some(s1)
    else if !s.isProtected then None
    else Some(s1.(associated := first, shielded := Some(first.value.id)))
  }

  // ---- broker/tasks/cloudwatch.py ----

  function Alarms(s: State): seq<nat> {
    if s.alarms.Some? then s.alarms.value else []
  }

  function DeleteAlarms(s: State): State {
    if Alarms(s) == [] then s
    else s.(alarms := Some([]), alarmed := s.alarmed - set a | a in Alarms(s))
  }

  function IdList(checks: seq<Check>): (r: seq<nat>)
    ensures |r| == |checks|
    ensures forall i :: 0 <= i < |r| ==> r[i] == checks[i].id
  {
    seq(|checks|, i requires 0 <= i < |checks| => checks[i].id)
  }

  function CreateAlarms(s: State): Option<State> {
    if !s.topic then None
    else if Recorded(s) == [] then Some(s)
    else Some(s.(alarms := Some(IdList(Recorded(s))), alarmed := s.alarmed + Ids(Recorded(s))))
  }

  // ---- the pipelines' order ----

  /** The steps of an update; None when one of them raises. */
  function Reconcile(s: State): Option<State> {
    var created := CreateNew(s);
    if created.None? then None
    else
      var updated := UpdateAssociated(created.value);
      if updated.None? then None else CreateAlarms(DeleteAlarms(DeleteUnused(updated.value)))
  }

  /** The steps of a provisioning. */
  function Provision(s: State): Option<State> {
    var created := CreateNew(s);
    if created.None? then None
    else
      var associated := Associate(created.value);
      if associated.None? then None else CreateAlarms(associated.value)
  }

  // ---- the invariant between runs ----

  ghost predicate DistinctIds(checks: seq<Check>) {
    && (forall c :: c in checks ==> multiset(checks)[c] == 1)
    && (forall c, d :: c in checks && d in checks && c.id == d.id ==> c == d)
  }

  /** The checks in AWS are the recorded ones. */
  ghost predicate Tracked(s: State) {
    && DistinctIds(Recorded(s))
    && (forall c :: c in Recorded(s) ==> c.id in s.health && s.health[c.id] == c.domain && c.id < s.nextId)
    && s.health.Keys == Ids(Recorded(s))
  }

  /** The association is with a recorded check, and so in AWS. */
  ghost predicate Associated(s: State) {
    if s.associated.Some? then s.associated.value in Recorded(s) && s.shielded == Some(s.associated.value.id)
    else s.shielded.None?
  }

  ghost predicate AlarmsTracked(s: State) {
    forall a :: a in s.alarmed <==> a in Alarms(s)
  }

  /** The references taken are the first ones, and what is left of the checks made under
      them is for the domains they were made for. */
  ghost predicate Referenced(s: State) {
    && (forall i, j :: 0 <= i < j && j in s.references ==> i in s.references)
    && (forall i :: i in s.references ==>
          var c := s.references[i]; c.id < s.nextId && (c.id in s.health ==> s.health[c.id] == c.domain))
  }

  ghost predicate Consistent(s: State) {
    Tracked(s) && Associated(s) && AlarmsTracked(s) && Referenced(s)
  }

  /** How many checks there are for a domain. */
  function Checks(checks: seq<Check>, domain: string): nat {
    if checks == [] then 0 else (if checks[0].domain == domain then 1 else 0) + Checks(checks[1..], domain)
  }

  /** How often a domain is listed. */
  function Listed(domains: seq<string>, domain: string): nat {
    if domains == [] then 0 else (if domains[0] == domain then 1 else 0) + Listed(domains[1..], domain)
  }

  lemma {:induction false} HasCounts(checks: seq<Check>, domain: string)
    ensures Has(checks, domain) <==> Checks(checks, domain) > 0
    decreases |checks|
  {
    if checks != [] {
      HasCounts(checks[1..], domain);
      assert checks == [checks[0]] + checks[1..];
      if c :| c in checks && c.domain == domain {
        assert c == checks[0] || c in checks[1..];
      }
    }
  }

  lemma {:induction false} ListedCounts(domains: seq<string>, domain: string)
    ensures domain in domains <==> Listed(domains, domain) > 0
    decreases |domains|
  {
    if domains != [] {
      ListedCounts(domains[1..], domain);
      assert domains == [domains[0]] + domains[1..];
    }
  }

  lemma {:induction false} ChecksAppend(a: seq<Check>, c: Check, domain: string)
    ensures Checks(a + [c], domain) == Checks(a, domain) + if c.domain == domain then 1 else 0
    decreases |a|
  {
    if a == [] {
      assert [c][1..] == [];
    } else {
      assert (a + [c])[1..] == a[1..] + [c];
      ChecksAppend(a[1..], c, domain);
    }
  }

  // ---- creating ----

  lemma OneMoreMember(checks: seq<Check>, c: Check)
    ensures forall x :: x in checks + [c] <==> x in checks || x == c
    ensures Ids(checks + [c]) == Ids(checks) + {c.id}
  {
  }

  /** A check with a new id leaves the ids distinct. */
  lemma OneMoreId(checks: seq<Check>, c: Check)
    requires DistinctIds(checks) && c.id !in Ids(checks)
    ensures DistinctIds(checks + [c])
  {
    OneMoreMember(checks, c);
    assert c !in checks;
    forall x | x in checks + [c] ensures multiset(checks + [c])[x] == 1 {
      assert multiset(checks + [c]) == multiset(checks) + multiset{c};
    }
  }

  lemma CreateKeeps(s: State, index: nat, domain: string)
    requires Tracked(s) && index !in s.references
    ensures Create(s, index, domain).Some? && Tracked(Create(s, index, domain).value)
  {
    hide DistinctIds, Ids;
    var c := Check(domain, s.nextId);
    NextIdIsNew(s);
    OneMoreMember(Recorded(s), c);
    OneMoreId(Recorded(s), c);
    assert Recorded(Create(s, index, domain).value) == Recorded(s) + [c];
  }

  lemma CreateRefers(s: State, index: nat, domain: string)
    requires Tracked(s) && Referenced(s) && index !in s.references
    requires forall j :: 0 <= j < index ==> j in s.references
    ensures Create(s, index, domain).Some? && Referenced(Create(s, index, domain).value)
  {
  }

  lemma NextIdIsNew(s: State)
    requires Tracked(s)
    ensures s.nextId !in Ids(Recorded(s))
  {
  }

  /** No reference from this one on is taken, and all before it are. */
  ghost predicate FreeFrom(s: State, index: nat) {
    forall i: nat :: i in s.references <==> i < index
  }

  /** New checks come after the recorded ones, one for each domain given. */
  lemma {:induction false} CreateAllKeeps(s: State, domains: seq<string>, index: nat, d: string)
    requires Tracked(s) && Referenced(s) && FreeFrom(s, index)
    ensures CreateAll(s, domains, index).Some?
    ensures var s' := CreateAll(s, domains, index).value;
            && Tracked(s') && Referenced(s') && FreeFrom(s', index + |domains|)
            && Recorded(s) <= Recorded(s')
            && Checks(Recorded(s'), d) == Checks(Recorded(s), d) + Listed(domains, d)
            && s' == s.(checks := s'.checks, health := s'.health, references := s'.references, nextId := s'.nextId)
    decreases |domains|
  {
    hide Tracked, Referenced;
    if domains != [] {
      CreateKeeps(s, index, domains[0]);
      CreateRefers(s, index, domains[0]);
      var s1 := Create(s, index, domains[0]).value;
      ChecksAppend(Recorded(s), Check(domains[0], s.nextId), d);
      CreateAllKeeps(s1, domains[1..], index + 1, d);
    }
  }

  lemma SameMembers(a: seq<Check>, b: seq<Check>)
    requires multiset(a) == multiset(b)
    ensures forall c :: c in a <==> c in b
    ensures Ids(a) == Ids(b)
  {
    forall c ensures c in a <==> c in b {
      assert c in multiset(a) <==> c in multiset(b);
    }
  }

  lemma SortingKeeps(s: State)
    requires Tracked(s)
    ensures Tracked(s.(checks := Some(ByDomain(Recorded(s)))))
  {
    SameMembers(ByDomain(Recorded(s)), Recorded(s));
  }

  lemma {:induction false} InsertCounts(c: Check, sorted: seq<Check>, d: string)
    ensures Checks(Insert(c, sorted), d) == Checks([c] + sorted, d)
    decreases |sorted|
  {
    assert ([c] + sorted)[1..] == sorted;
    if sorted != [] && !StringLeq(c.domain, sorted[0].domain) {
      InsertCounts(c, sorted[1..], d);
      assert ([c] + sorted[1..])[1..] == sorted[1..];
    }
  }

  ghost predicate SortedByDomain(checks: seq<Check>) {
    forall i, j :: 0 <= i < j < |checks| ==> StringLeq(checks[i].domain, checks[j].domain)
  }

  lemma {:induction false} InsertSorts(c: Check, sorted: seq<Check>)
    requires SortedByDomain(sorted)
    ensures SortedByDomain(Insert(c, sorted))
    decreases |sorted|
  {
    var r := Insert(c, sorted);
    if sorted == [] {
    } else if StringLeq(c.domain, sorted[0].domain) {
      forall j | 0 < j < |r| ensures StringLeq(c.domain, r[j].domain) {
        if j > 1 { LeqTransitive(c.domain, sorted[0].domain, sorted[j - 1].domain); }
      }
    } else {
      LeqTotal(c.domain, sorted[0].domain);
      InsertSorts(c, sorted[1..]);
      var rest := Insert(c, sorted[1..]);
      SameMembers(rest, sorted[1..] + [c]);
      forall j | 0 < j < |r| ensures StringLeq(r[0].domain, r[j].domain) {
        assert r[j] in rest;
        assert r[j] == c || r[j] in sorted[1..];
      }
      assert forall i, j :: 0 < i < j < |r| ==> r[i] == rest[i - 1] && r[j] == rest[j - 1];
    }
  }

  /** What is recorded after new checks were created is in the order of the domains. */
  lemma {:induction false} ChecksAreSorted(checks: seq<Check>)
    ensures SortedByDomain(ByDomain(checks))
    decreases |checks|
  {
    if checks != [] {
      ChecksAreSorted(checks[1..]);
      InsertSorts(checks[0], ByDomain(checks[1..]));
    }
  }

  lemma {:induction false} SortingCounts(checks: seq<Check>, d: string)
    ensures Checks(ByDomain(checks), d) == Checks(checks, d)
    decreases |checks|
  {
    if checks != [] {
      SortingCounts(checks[1..], d);
      InsertCounts(checks[0], ByDomain(checks[1..]), d);
      assert ([checks[0]] + ByDomain(checks[1..]))[1..] == ByDomain(checks[1..]);
    }
  }

  lemma {:induction false} UncheckedCounts(domains: seq<string>, checks: seq<Check>, d: string)
    ensures Listed(Unchecked(domains, checks), d) == if Has(checks, d) then 0 else Listed(domains, d)
    decreases |domains|
  {
    if domains != [] { UncheckedCounts(domains[1..], checks, d); }
  }

  lemma {:induction false} UncheckedLack(domains: seq<string>, checks: seq<Check>)
    ensures forall d :: d in Unchecked(domains, checks) ==> !Has(checks, d) && d in domains
    decreases |domains|
  {
    if domains != [] { UncheckedLack(domains[1..], checks); }
  }

  /** Asking again under a reference that is taken gets no new check: what is there under
      it is recorded, so its domain was not asked for. */
  lemma TakenIsRefused(s: State, index: nat, domain: string)
    requires Consistent(s) && index in s.references && !Has(Recorded(s), domain)
    ensures Create(s, index, domain).None?
  {
    var c := s.references[index];
    if c.id in s.health {
      assert c.id in Ids(Recorded(s));
      var r :| r in Recorded(s) && r.id == c.id;
      assert Has(Recorded(s), c.domain);
    }
  }

  predicate NoneToCreate(s: State) {
    Unchecked(s.domains, Recorded(s)) == []
  }

  /** The task raises exactly when there is a check to create and the instance has had one. */
  lemma CreationStops(s: State)
    requires Consistent(s)
    ensures CreateNew(s).None? <==> !NoneToCreate(s) && s.references != map[]
  {
    var todo := Unchecked(s.domains, Recorded(s));
    UncheckedLack(s.domains, Recorded(s));
    if todo != [] {
      assert todo[0] in todo;
      if s.references != map[] {
        var j :| j in s.references;
        assert 0 in s.references by { FirstIsTaken(s, j); }
        TakenIsRefused(s, 0, todo[0]);
      } else {
        CreateAllKeeps(s, todo, 0, "");
      }
    }
  }

  lemma FirstIsTaken(s: State, j: nat)
    requires Referenced(s) && j in s.references
    ensures 0 in s.references
  {
  }

  /** What creating leaves: all that was recorded, and a check for each domain listed
      without one. */
  lemma CreateNewKeeps(s: State, d: string)
    requires Consistent(s) && CreateNew(s).Some?
    ensures var s' := CreateNew(s).value;
            && Consistent(s')
            && (forall c :: c in Recorded(s) ==> c in Recorded(s'))
            && Checks(Recorded(s'), d)
               == Checks(Recorded(s), d) + (if Has(Recorded(s), d) then 0 else Listed(s.domains, d))
            && s' == s.(checks := s'.checks, health := s'.health, references := s'.references, nextId := s'.nextId)
  {
    hide Tracked, Referenced, Has, Associated, CreateAll, FreeFrom;
    UncheckedCounts(s.domains, Recorded(s), d);
    CreationStops(s);
    if !NoneToCreate(s) {
      CreatedKeeps(s, Unchecked(s.domains, Recorded(s)), d);
      StillAssociated(s, CreateNew(s).value);
    }
  }

  lemma CreatedKeeps(s: State, todo: seq<string>, d: string)
    requires Tracked(s) && Referenced(s) && s.references == map[]
    ensures CreateAll(s, todo, 0).Some?
    ensures var s1 := CreateAll(s, todo, 0).value;
            var s' := s1.(checks := Some(ByDomain(Recorded(s1))));
            && Tracked(s') && Referenced(s')
            && (forall c :: c in Recorded(s) ==> c in Recorded(s'))
            && Checks(Recorded(s'), d) == Checks(Recorded(s), d) + Listed(todo, d)
            && s' == s.(checks := s'.checks, health := s'.health, references := s'.references, nextId := s'.nextId)
  {
    hide Tracked, Referenced, CreateAll;
    CreateAllKeeps(s, todo, 0, d);
    var s1 := CreateAll(s, todo, 0).value;
    SortingKeeps(s1);
    SortingRefers(s1);
    SortingCounts(Recorded(s1), d);
    SameMembers(ByDomain(Recorded(s1)), Recorded(s1));
    assert forall c :: c in Recorded(s) ==> c in Recorded(s1);
  }

  lemma StillAssociated(s: State, s': State)
    requires Associated(s) && s'.associated == s.associated && s'.shielded == s.shielded
    requires forall c :: c in Recorded(s) ==> c in Recorded(s')
    ensures Associated(s')
  {
  }

  lemma SortingRefers(s: State)
    requires Referenced(s)
    ensures Referenced(s.(checks := Some(ByDomain(Recorded(s)))))
  {
  }

  /** Then every domain has a check. */
  lemma AllChecked(s: State, d: string)
    requires Consistent(s) && d in s.domains && CreateNew(s).Some?
    ensures Has(Recorded(CreateNew(s).value), d)
  {
    CreateNewKeeps(s, d);
    ListedCounts(s.domains, d);
    HasCounts(Recorded(s), d);
    HasCounts(Recorded(CreateNew(s).value), d);
  }

  // ---- associating ----

  lemma {:induction false} FirstWantedIs(checks: seq<Check>, domains: seq<string>)
    ensures match FirstWanted(checks, domains)
            case Some(c) => c in checks && c.domain in domains
            case None => forall c :: c in checks ==> c.domain !in domains
    decreases |checks|
  {
    if checks != [] {
      FirstWantedIs(checks[1..], domains);
      assert checks == [checks[0]] + checks[1..];
    }
  }

  /** The association is with a check for one of the domains, if any check is. */
  lemma UpdateKeeps(s: State)
    requires Consistent(s) && UpdateAssociated(s).Some?
    ensures var s' := UpdateAssociated(s).value;
            && Consistent(s')
            && (s'.associated.Some? ==> s'.associated.value.domain in s.domains)
            && (s'.associated.None? ==> forall c :: c in Recorded(s) ==> c.domain !in s.domains)
            && (s.associated.Some? && s.associated.value.domain in s.domains ==> s'.associated == s.associated)
            && s' == s.(associated := s'.associated, shielded := s'.shielded)
  {
    FirstWantedIs(Recorded(s), s.domains);
  }

  // ---- deleting ----

  function Kept(checks: seq<Check>, domains: seq<string>): seq<Check> {
    if checks == [] then []
    else if checks[0].domain in domains then [checks[0]] + Kept(checks[1..], domains)
    else Kept(checks[1..], domains)
  }

  function WithoutIds(checks: seq<Check>, ids: set<nat>): seq<Check> {
    if checks == [] then []
    else if checks[0].id in ids then WithoutIds(checks[1..], ids)
    else [checks[0]] + WithoutIds(checks[1..], ids)
  }

  lemma {:induction false} WithoutTwice(checks: seq<Check>, id: nat, ids: set<nat>)
    ensures WithoutIds(WithoutId(checks, id), ids) == WithoutIds(checks, ids + {id})
    decreases |checks|
  {
    if checks != [] { WithoutTwice(checks[1..], id, ids); }
  }

  lemma {:induction false} WithoutNone(checks: seq<Check>)
    ensures WithoutIds(checks, {}) == checks
    decreases |checks|
  {
    if checks != [] { WithoutNone(checks[1..]); }
  }

  lemma {:induction false} DeleteAllIs(s: State, todo: seq<Check>)
    ensures var s' := DeleteAll(s, todo);
            && Recorded(s') == WithoutIds(Recorded(s), Ids(todo))
            && s'.health == s.health - Ids(todo)
            && s' == s.(checks := s'.checks, health := s'.health)
    decreases |todo|
  {
    if todo == [] {
      WithoutNone(Recorded(s));
      assert Ids(todo) == {};
    } else {
      var s1 := s.(health := s.health - {todo[0].id}, checks := Some(WithoutId(Recorded(s), todo[0].id)));
      DeleteAllIs(s1, todo[1..]);
      WithoutTwice(Recorded(s), todo[0].id, Ids(todo[1..]));
      IdsOfTail(todo);
      assert s.health - {todo[0].id} - Ids(todo[1..]) == s.health - (Ids(todo[1..]) + {todo[0].id});
    }
  }

  lemma IdsOfTail(todo: seq<Check>)
    requires todo != []
    ensures Ids(todo) == Ids(todo[1..]) + {todo[0].id}
  {
    assert todo == [todo[0]] + todo[1..];
    assert forall c :: c in todo <==> c == todo[0] || c in todo[1..];
  }

  lemma {:induction false} UnwantedIs(checks: seq<Check>, domains: seq<string>)
    ensures forall c :: c in Unwanted(checks, domains) <==> c in checks && c.domain !in domains
    decreases |checks|
  {
    if checks != [] {
      UnwantedIs(checks[1..], domains);
      assert checks == [checks[0]] + checks[1..];
    }
  }

  lemma {:induction false} KeptIs(checks: seq<Check>, domains: seq<string>, d: string)
    ensures forall c :: c in Kept(checks, domains) <==> c in checks && c.domain in domains
    ensures forall c :: c in Kept(checks, domains) ==> multiset(Kept(checks, domains))[c] == multiset(checks)[c]
    ensures Checks(Kept(checks, domains), d) == if d in domains then Checks(checks, d) else 0
    decreases |checks|
  {
    if checks != [] {
      KeptIs(checks[1..], domains, d);
      assert checks == [checks[0]] + checks[1..];
      var rest := Kept(checks[1..], domains);
      assert ([checks[0]] + rest)[1..] == rest;
    }
  }

  /** To remove by id is to remove by domain, as ids are distinct. */
  lemma {:induction false} WithoutIsKept(checks: seq<Check>, domains: seq<string>, ids: set<nat>)
    requires forall c :: c in checks ==> (c.id in ids <==> c.domain !in domains)
    ensures WithoutIds(checks, ids) == Kept(checks, domains)
    decreases |checks|
  {
    if checks != [] {
      assert checks[0] in checks;
      assert forall c :: c in checks[1..] ==> c in checks;
      WithoutIsKept(checks[1..], domains, ids);
    }
  }

  lemma UnwantedIds(checks: seq<Check>, domains: seq<string>)
    requires DistinctIds(checks)
    ensures forall c :: c in checks ==> (c.id in Ids(Unwanted(checks, domains)) <==> c.domain !in domains)
  {
    UnwantedIs(checks, domains);
    forall c | c in checks ensures c.id in Ids(Unwanted(checks, domains)) <==> c.domain !in domains {
      if c.id in Ids(Unwanted(checks, domains)) {
        var d :| d in Unwanted(checks, domains) && d.id == c.id;
        assert d == c;
      }
    }
  }

  /** Exactly the checks for the domains are left, recorded and in AWS; the associated
      check is never among those deleted. */
  lemma DeleteUnusedKeeps(s: State, d: string)
    requires Consistent(s) && (s.associated.Some? ==> s.associated.value.domain in s.domains)
    ensures var s' := DeleteUnused(s);
            && Consistent(s')
            && Recorded(s') == Kept(Recorded(s), s.domains)
            && Checks(Recorded(s'), d) == (if d in s.domains then Checks(Recorded(s), d) else 0)
            && (forall c :: c in Recorded(s') <==> c in Recorded(s) && c.domain in s.domains)
            && s' == s.(checks := s'.checks, health := s'.health)
    ensures s.associated.Some? ==> s.associated.value !in Unwanted(Recorded(s), s.domains)
  {
    var checks := Recorded(s);
    var todo := Unwanted(checks, s.domains);
    DeleteAllIs(s, todo);
    UnwantedIds(checks, s.domains);
    UnwantedIs(checks, s.domains);
    WithoutIsKept(checks, s.domains, Ids(todo));
    KeptIs(checks, s.domains, d);
    LeftIsTracked(s, DeleteUnused(s), Ids(todo));
  }

  lemma LeftIsTracked(s: State, s': State, ids: set<nat>)
    requires Tracked(s) && s'.nextId == s.nextId && s'.health == s.health - ids
    requires forall c :: c in Recorded(s') <==> c in Recorded(s) && c.id !in ids
    requires forall c :: c in Recorded(s') ==> multiset(Recorded(s'))[c] == multiset(Recorded(s))[c]
    ensures Tracked(s')
  {
    forall id ensures id in s'.health.Keys <==> id in Ids(Recorded(s')) {
      if id in s.health.Keys && id !in ids {
        assert id in Ids(Recorded(s));
        var c :| c in Recorded(s) && c.id == id;
        assert c in Recorded(s');
      }
    }
  }

  // ---- alarms ----

  /** Alarms are not what the rest is about. */
  lemma SameChecks(s: State, s': State)
    requires s' == s.(alarms := s'.alarms, alarmed := s'.alarmed)
    requires Tracked(s) && Associated(s) && Referenced(s)
    ensures Tracked(s') && Associated(s') && Referenced(s')
  {
  }

  /** The old alarms are replaced by one for each check. */
  lemma AlarmsReplaced(s: State)
    requires Consistent(s) && CreateAlarms(DeleteAlarms(s)).Some?
    ensures var s' := CreateAlarms(DeleteAlarms(s)).value;
            && Consistent(s')
            && Alarms(s') == IdList(Recorded(s))
            && s' == s.(alarms := s'.alarms, alarmed := s'.alarmed)
  {
    hide Tracked, Associated, Referenced;
    var mid := DeleteAlarms(s);
    assert mid.alarmed == {};
    var s' := CreateAlarms(mid).value;
    IdsListed(Recorded(s));
    if Recorded(s) == [] { assert IdList([]) == []; }
    SameChecks(s, s');
  }

  lemma IdsListed(checks: seq<Check>)
    ensures forall a :: a in IdList(checks) <==> a in Ids(checks)
  {
    forall a ensures a in IdList(checks) <==> a in Ids(checks) {
      if i :| 0 <= i < |checks| && IdList(checks)[i] == a { assert checks[i] in checks; }
      if a in Ids(checks) {
        var c :| c in checks && c.id == a;
        var i :| 0 <= i < |checks| && checks[i] == c;
        assert IdList(checks)[i] == a;
      }
    }
  }

  // ---- main results ----

  /** The checks that a run of the update steps leaves for a domain. */
  function Left(s: State, d: string): nat {
    if d !in s.domains then 0
    else if Has(Recorded(s), d) then Checks(Recorded(s), d)
    else Listed(s.domains, d)
  }

  /**
    Reconciliation is exact. A domain that had a check keeps it, under its id; a new
    domain has as many checks as times it is listed; no other domain has any. The
    checks in AWS are the recorded ones, there is one alarm for each, and the Shield
    association is one of them, if there is any: the one it was, if its domain stays.
   */
  lemma ReconcileIsExact(s: State, d: string)
    requires Consistent(s) && Reconcile(s).Some?
    ensures var s' := Reconcile(s).value;
            && Consistent(s')
            && Checks(Recorded(s'), d) == Left(s, d)
            && (forall c :: c in Recorded(s) && c.domain in s.domains ==> c in Recorded(s'))
            && Alarms(s') == IdList(Recorded(s'))
            && (s'.associated.Some? <==> Recorded(s') != [])
            && (s.associated.Some? && s.associated.value.domain in s.domains ==> s'.associated == s.associated)
            && s'.domains == s.domains
  {
    hide Consistent, CreateNew, UpdateAssociated, DeleteUnused, CreateAlarms, DeleteAlarms, Has;
    var s1 := CreateNew(s).value;
    CreateNewKeeps(s, d);
    var s2 := UpdateAssociated(s1).value;
    UpdateKeeps(s1);
    var s3 := DeleteUnused(s2);
    DeleteUnusedKeeps(s2, d);
    AlarmsReplaced(s3);
    HasCounts(Recorded(s), d);
    AssociatedIff(s2, s3);
  }

  lemma AssociatedIff(s2: State, s3: State)
    requires Consistent(s2)
    requires s2.associated.Some? ==> s2.associated.value.domain in s2.domains
    requires s2.associated.None? ==> forall c :: c in Recorded(s2) ==> c.domain !in s2.domains
    requires s3.associated == s2.associated
    requires forall c :: c in Recorded(s3) <==> c in Recorded(s2) && c.domain in s2.domains
    ensures s3.associated.Some? <==> Recorded(s3) != []
  {
    if Recorded(s3) != [] { assert Recorded(s3)[0] in Recorded(s3); }
  }

  /** Exactly one check for each domain, exactly when no new domain is listed twice. */
  lemma OneCheckPerDomain(s: State)
    requires Consistent(s) && Reconcile(s).Some?
    requires forall d :: Has(Recorded(s), d) ==> Checks(Recorded(s), d) == 1
    ensures (forall d :: d in s.domains ==> Checks(Recorded(Reconcile(s).value), d) == 1)
       <==> (forall d :: d in s.domains && !Has(Recorded(s), d) ==> Listed(s.domains, d) == 1)
  {
    forall d | d in s.domains
      ensures Checks(Recorded(Reconcile(s).value), d) == 1 <==> (Has(Recorded(s), d) || Listed(s.domains, d) == 1)
    {
      ReconcileIsExact(s, d);
    }
  }

  /** A new association is due, and there is a check to associate. */
  predicate Due(s: State) {
    s.domains != [] && (s.associated.None? || s.associated.value.domain !in s.domains)
  }

  lemma UpdateStops(s: State)
    requires s.domains != [] ==> Has(Recorded(s), s.domains[0])
    ensures UpdateAssociated(s).None? <==> !s.isProtected && Due(s)
  {
    FirstWantedIs(Recorded(s), s.domains);
    if s.domains != [] {
      var c :| c in Recorded(s) && c.domain == s.domains[0];
      assert c.domain in s.domains;
    }
  }

  lemma AlarmsStop(s: State)
    ensures CreateAlarms(DeleteAlarms(s)).None? <==> !s.topic
  {
  }

  /** The steps stop half-way exactly when there is a check to create and the instance has
      had one before, or there is no topic to alarm, or a new association is due and the
      distribution has no protection. */
  lemma ReconcileStops(s: State)
    requires Consistent(s)
    ensures Reconcile(s).None?
       <==> ((!NoneToCreate(s) && s.references != map[]) || !s.topic || (!s.isProtected && Due(s)))
  {
    hide Consistent, CreateNew, UpdateAssociated, DeleteUnused, CreateAlarms, DeleteAlarms, Has, NoneToCreate;
    CreationStops(s);
    if CreateNew(s).Some? {
      var s1 := CreateNew(s).value;
      CreateNewKeeps(s, "");
      if s.domains != [] { AllChecked(s, s.domains[0]); }
      UpdateStops(s1);
      var u := UpdateAssociated(s1);
      if u.Some? {
        UpdateKeeps(s1);
        DeleteUnusedKeeps(u.value, "");
        AlarmsStop(DeleteUnused(u.value));
      }
    }
  }

  /** A new instance ends with a check, an alarm and an association in the same way. */
  lemma ProvisionIsExact(s: State, d: string)
    requires Consistent(s) && Recorded(s) == [] && Alarms(s) == [] && s.associated.None? && Provision(s).Some?
    ensures var s' := Provision(s).value;
            && Consistent(s')
            && Checks(Recorded(s'), d) == Listed(s.domains, d)
            && Alarms(s') == IdList(Recorded(s'))
            && (s'.associated.Some? <==> s.domains != [])
  {
    CreateNewKeeps(s, d);
    var s1 := CreateNew(s).value;
    if s.domains != [] {
      AllChecked(s, s.domains[0]);
    } else {
      assert Recorded(s1) == [];
    }
    if Recorded(s1) != [] { assert Recorded(s1)[0] in Recorded(s1); }
    var s2 := Associate(s1).value;
    assert Consistent(s2);
    assert DeleteAlarms(s2) == s2;
    AlarmsReplaced(s2);
  }

  // ---- what happens to a new instance ----

  function NewInstance(domains: seq<string>): State {
    State(domains, None, None, None, true, map[], map[], true, None, {}, 0)
  }

  lemma NewIsConsistent(domains: seq<string>)
    ensures Consistent(NewInstance(domains))
  {
  }

  /** Its provisioning goes through. */
  lemma NewIsProvisioned(domains: seq<string>)
    ensures Provision(NewInstance(domains)).Some?
  {
    NewIsConsistent(domains);
    hide Consistent;
    CreationStops(NewInstance(domains));
    hide CreateNew;
    CreateNewKeeps(NewInstance(domains), "");
  }

  /** A domain that the request listed twice gets two checks. */
  lemma ARepeatedDomainHasTwoChecks(d: string)
    ensures Provision(NewInstance([d, d])).Some?
    ensures Checks(Recorded(Provision(NewInstance([d, d])).value), d) == 2
  {
    assert [d, d][1..] == [d] && [d][1..] == [];
    assert Listed([d, d], d) == 2 by { assert Listed([d], d) == 1 + Listed([], d); }
    NewIsConsistent([d, d]);
    NewIsProvisioned([d, d]);
    hide Consistent, Provision, NewInstance;
    assert NewInstance([d, d]).domains == [d, d] by { NewFacts([d, d]); }
    NewFacts([d, d]);
    ProvisionIsExact(NewInstance([d, d]), d);
  }

  lemma NewFacts(domains: seq<string>)
    ensures var s := NewInstance(domains);
            s.domains == domains && Recorded(s) == [] && Alarms(s) == [] && s.associated.None? && s.references == map[]
  {
  }

  /** The references of an instance whose checks were created are taken from then on. */
  lemma CreatingTakesReferences(s: State)
    requires Consistent(s) && CreateNew(s).Some? && !NoneToCreate(s)
    ensures CreateNew(s).value.references != map[]
  {
    CreationStops(s);
    var todo := Unchecked(s.domains, Recorded(s));
    CreateAllKeeps(s, todo, 0, "");
    assert 0 in CreateNew(s).value.references;
  }

  /** No later step frees them. */
  lemma ReferencesStay(s: State)
    requires Consistent(s) && s.references != map[] && Reconcile(s).Some?
    ensures Reconcile(s).value.references == s.references
  {
    hide Consistent, CreateNew, UpdateAssociated, DeleteUnused, CreateAlarms, DeleteAlarms;
    CreationStops(s);
    assert CreateNew(s).value == s by { NothingCreated(s); }
    UpdateKeeps(s);
    DeleteUnusedKeeps(UpdateAssociated(s).value, "");
    AlarmsReplaced(DeleteUnused(UpdateAssociated(s).value));
  }

  lemma NothingCreated(s: State)
    requires NoneToCreate(s)
    ensures CreateNew(s) == Some(s)
  {
  }

  /** An instance provisioned with checks never gets another domain: every update that
      adds one raises before it has changed anything. */
  lemma NoDomainCanBeAdded(s: State, domains: seq<string>, d: string)
    requires Consistent(s) && s.references != map[] && d in domains && !Has(Recorded(s), d)
    ensures Reconcile(s.(domains := domains)).None?
  {
    var s' := s.(domains := domains);
    assert Consistent(s');
    UncheckedCounts(domains, Recorded(s), d);
    ListedCounts(domains, d);
    hide Consistent, Has, Reconcile;
    ListedCounts(Unchecked(domains, Recorded(s)), d);
    ReconcileStops(s');
  }

  lemma ProvisioningTakesReferences(s: State)
    requires Consistent(s) && Recorded(s) == [] && s.domains != [] && Provision(s).Some?
    ensures Provision(s).value.references != map[]
  {
    assert !NoneToCreate(s);
    CreatingTakesReferences(s);
    hide CreateNew;
  }

  /** It happens to every instance that was provisioned with a domain. */
  lemma AnAddedDomainStops(domains: seq<string>, more: seq<string>, d: string)
    requires domains != [] && d in more && d !in domains
    ensures Provision(NewInstance(domains)).Some?
    ensures Reconcile(Provision(NewInstance(domains)).value.(domains := more)).None?
  {
    hide Consistent, Provision, Reconcile, NewInstance, Has;
    var s := NewInstance(domains);
    NewFacts(domains);
    NewIsConsistent(domains);
    NewIsProvisioned(domains);
    ProvisioningTakesReferences(s);
    ProvisionIsExact(s, d);
    ListedCounts(domains, d);
    HasCounts(Recorded(Provision(s).value), d);
    NoDomainCanBeAdded(Provision(s).value, more, d);
  }
}
