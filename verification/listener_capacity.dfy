/**
  When a dedicated instance can be renewed or updated: exactly when a listener of its
  organization has room, counting the instance itself. An organization whose listeners
  are all full can renew none of its instances.
 */
module ListenerCapacity {
  import opened Wrappers
  import opened Listeners
  import Strings

  predicate Full(s: State, row: Row) {
    |Occupants(s.instances, row.arn)| == MAX_CERTS_PER_ALB
  }

  /** Whatever has happened before, the selection of a renewal or an update raises
      exactly when every listener of the instance's organization is full. */
  lemma RaisesExactlyWhenFull(events: seq<Event>, shared: set<string>, id: string)
    requires AdmissibleRun(EMPTY, events, shared)
    requires var s := After(EMPTY, events); id in s.instances && s.instances[id].dedicated
    ensures var s := After(EMPTY, events);
            Raises(s, id, false)
            <==> forall i :: 0 <= i < |s.rows| && s.rows[i].org == s.instances[id].org ==> Full(s, s.rows[i])
  {
    AfterIsSound(EMPTY, events, shared);
    var s := After(EMPTY, events);
    var org := s.instances[id].org;
    PotentialIs(s, s.rows, org);
    assert forall i :: 0 <= i < |s.rows| ==> Isolated(s, s.rows[i]);
    if Raises(s, id, false) {
      forall i | 0 <= i < |s.rows| && s.rows[i].org == org ensures Full(s, s.rows[i]) {
        assert s.rows[i].arn !in Potential(s, s.rows, org);
      }
    } else {
      var arn := Potential(s, s.rows, org)[0];
      assert arn in Potential(s, s.rows, org);
    }
  }

  // ---- an organization with one listener ----

  /** Distinct names. */
  function Name(k: nat): (name: string)
    ensures |name| == k
  {
    seq(k, i => 'x')
  }

  function Joins(row: Row, n: nat): seq<Event> {
    if n == 0 then []
    else Joins(row, n - 1) + [CreateDedicated(Name(n - 1), row.org), SelectListener(Name(n - 1), true, map[])]
  }

  /** The table is loaded with one listener and n instances are provisioned. */
  function Filling(row: Row, n: nat): seq<Event> {
    [Reload([row])] + Joins(row, n)
  }

  /** Instances with these names, all on the one listener there is. */
  ghost predicate Joined(s: State, row: Row, n: nat) {
    && s.rows == [row]
    && (forall id :: id in s.instances <==> |id| < n && id == Name(|id|))
    && (forall id :: id in s.instances ==> s.instances[id] == Instance(row.org, Some(row.arn), true, false))
    && |Occupants(s.instances, row.arn)| == n
  }

  lemma OneCreated(s: State, row: Row, n: nat)
    requires Joined(s, row, n) && n < MAX_CERTS_PER_ALB
    ensures var s1 := Next(s, CreateDedicated(Name(n), row.org));
            && s1 == s.(instances := s.instances[Name(n) := Instance(row.org, None, true, false)])
            && Occupants(s1.instances, row.arn) == Occupants(s.instances, row.arn)
            && Name(n) !in s.instances
  {
  }

  lemma OneSelects(s: State, row: Row, id: string)
    requires s.rows == [row] && |Occupants(s.instances, row.arn)| < MAX_CERTS_PER_ALB
    requires id in s.instances && s.instances[id] == Instance(row.org, None, true, false)
    ensures Next(s, SelectListener(id, true, map[]))
         == s.(instances := s.instances[id := Instance(row.org, Some(row.arn), true, false)])
  {
    Alone(s, row);
  }

  lemma OneJoins(s: State, row: Row, n: nat)
    requires Joined(s, row, n) && n < MAX_CERTS_PER_ALB
    ensures var e, f := CreateDedicated(Name(n), row.org), SelectListener(Name(n), true, map[]);
            Joined(Next(Next(s, e), f), row, n + 1)
  {
    hide Next, Potential;
    var id := Name(n);
    var s1 := Next(s, CreateDedicated(id, row.org));
    OneCreated(s, row, n);
    OneSelects(s1, row, id);
    var s2 := Next(s1, SelectListener(id, true, map[]));
    assert Occupants(s2.instances, row.arn) == Occupants(s.instances, row.arn) + {id};
  }

  /** One listener with room is the one selected. */
  lemma Alone(s: State, row: Row)
    requires s.rows == [row] && |Occupants(s.instances, row.arn)| < MAX_CERTS_PER_ALB
    ensures Potential(s, s.rows, row.org) == [row.arn]
    ensures Strings.Sorted([row.arn]) == [row.arn]
  {
    assert s.rows[1..] == [];
    assert Strings.Sorted([row.arn][1..]) == [];
  }

  lemma {:induction false} FilledUp(row: Row, n: nat)
    requires n <= MAX_CERTS_PER_ALB
    ensures AdmissibleRun(EMPTY, Filling(row, n), {}) && Joined(After(EMPTY, Filling(row, n)), row, n)
    decreases n
  {
    hide Joined, Next, After, AdmissibleRun;
    if n == 0 {
      Loaded(row);
    } else {
      FilledUp(row, n - 1);
      var e, f := CreateDedicated(Name(n - 1), row.org), SelectListener(Name(n - 1), true, map[]);
      assert Filling(row, n) == Filling(row, n - 1) + [e, f];
      TwoMore(EMPTY, Filling(row, n - 1), e, f);
      OneJoins(After(EMPTY, Filling(row, n - 1)), row, n - 1);
    }
  }

  lemma Loaded(row: Row)
    ensures AdmissibleRun(EMPTY, Filling(row, 0), {}) && Joined(After(EMPTY, Filling(row, 0)), row, 0)
  {
    var e := Reload([row]);
    assert Filling(row, 0) == [e] && [e][1..] == [];
    assert LoadRows([], [row]) == LoadRows(InsertRow([], row), [row][1..]);
    assert Next(EMPTY, e) == State([row], map[]);
    assert After(EMPTY, [e]) == After(Next(EMPTY, e), []);
    assert Occupants(map[], row.arn) == {};
  }

  lemma {:induction false} TwoMore(s: State, events: seq<Event>, e: Event, f: Event)
    requires AdmissibleRun(s, events, {}) && e.CreateDedicated? && f.SelectListener?
    ensures After(s, events + [e, f]) == Next(Next(After(s, events), e), f)
    ensures AdmissibleRun(s, events + [e, f], {})
    decreases |events|
  {
    hide Next;
    if events == [] {
      assert [e, f][1..] == [f] && [f][1..] == [];
      assert events + [e, f] == [e, f];
      assert After(Next(s, e), [f]) == After(Next(Next(s, e), f), []);
      assert AdmissibleRun(Next(s, e), [f], {}) && Admissible(s, e, {});
    } else {
      assert (events + [e, f])[1..] == events[1..] + [e, f];
      TwoMore(Next(s, events[0]), events[1..], e, f);
    }
  }

  /** Nineteen instances on the one listener of their organization: none can be renewed
      or updated. */
  lemma AFullOrganizationCannotRenew(row: Row, id: string)
    requires id in After(EMPTY, Filling(row, MAX_CERTS_PER_ALB)).instances
    ensures AdmissibleRun(EMPTY, Filling(row, MAX_CERTS_PER_ALB), {})
    ensures |After(EMPTY, Filling(row, MAX_CERTS_PER_ALB)).instances| == MAX_CERTS_PER_ALB
    ensures Raises(After(EMPTY, Filling(row, MAX_CERTS_PER_ALB)), id, false)
  {
    hide After, AdmissibleRun, Filling;
    FilledUp(row, MAX_CERTS_PER_ALB);
    var s := After(EMPTY, Filling(row, MAX_CERTS_PER_ALB));
    assert s.instances.Keys == Occupants(s.instances, row.arn);
    RaisesExactlyWhenFull(Filling(row, MAX_CERTS_PER_ALB), {}, id);
  }
}
