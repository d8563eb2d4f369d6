/**
  Placement on dedicated listeners: capacity and isolation, whatever placements,
  renewals, moves, deactivations and reloads of the configuration are interleaved.
 */
module Listeners {
  import opened Wrappers
  import opened Strings

  const MAX_CERTS_PER_ALB: nat := 19

  /** A row of the dedicated listener table. */
  datatype Row = Row(arn: string, alb: string, org: string)

  /** A load-balanced instance; `dedicated` says that its type is the dedicated plan. */
  datatype Instance = Instance(org: string, listener: Option<string>, dedicated: bool, deactivated: bool)

  datatype State = State(rows: seq<Row>, instances: map<string, Instance>)

  // ---- choosing a listener ----

  predicate Placed(i: Instance, arn: string) {
    i.dedicated && !i.deactivated && i.listener == Some(arn)
  }

  /** The active dedicated instances that the database has on a listener. */
  function Occupants(instances: map<string, Instance>, arn: string): set<string> {
    set id | id in instances && Placed(instances[id], arn)
  }

  predicate HasRoom(s: State, row: Row, org: string) {
    row.org == org && |Occupants(s.instances, row.arn)| < MAX_CERTS_PER_ALB
  }

  /** The listeners of the organization with room, by the database's count. */
  function Potential(s: State, rows: seq<Row>, org: string): seq<string> {
    if rows == [] then []
    else if HasRoom(s, rows[0], org) then [rows[0].arn] + Potential(s, rows[1..], org)
    else Potential(s, rows[1..], org)
  }

  lemma {:induction false} PotentialIs(s: State, rows: seq<Row>, org: string)
    ensures forall arn ::
              arn in Potential(s, rows, org)
              <==> exists i :: 0 <= i < |rows| && rows[i].arn == arn && HasRoom(s, rows[i], org)
    decreases |rows|
  {
    if rows != [] {
      PotentialIs(s, rows[1..], org);
      forall arn
        ensures (arn in Potential(s, rows, org)
                 <==> exists i :: 0 <= i < |rows| && rows[i].arn == arn && HasRoom(s, rows[i], org))
      {
        if arn in Potential(s, rows[1..], org) {
          var i :| 0 <= i < |rows[1..]| && rows[1..][i].arn == arn && HasRoom(s, rows[1..][i], org);
          assert rows[i + 1].arn == arn && HasRoom(s, rows[i + 1], org);
        }
        if i :| 0 <= i < |rows| && rows[i].arn == arn && HasRoom(s, rows[i], org) {
          if i > 0 { assert rows[1..][i - 1].arn == arn && HasRoom(s, rows[1..][i - 1], org); }
        }
      }
    }
  }

  function LoadOf(loads: map<string, nat>, arn: string): nat {
    if arn in loads then loads[arn] else 0
  }

  /** The first of the listeners with the fewest certificates, by AWS's count. */
  function Lowest(arns: seq<string>, loads: map<string, nat>): (r: string)
    requires arns != []
    ensures r in arns
    ensures forall other :: other in arns ==> LoadOf(loads, r) <= LoadOf(loads, other)
  {
    if |arns| == 1 then arns[0]
    else
      var rest := Lowest(arns[1..], loads);
      if LoadOf(loads, arns[0]) <= LoadOf(loads, rest) then arns[0] else rest
  }

  /** Of several as little used, the first in the order of the list. */
  lemma {:induction false} LowestIsFirst(arns: seq<string>, loads: map<string, nat>)
    requires arns != [] && Ordered(arns)
    ensures forall other :: other in arns && LoadOf(loads, other) == LoadOf(loads, Lowest(arns, loads)) ==>
              StringLeq(Lowest(arns, loads), other)
    decreases |arns|
  {
    if |arns| == 1 {
      LeqTotal(arns[0], arns[0]);
    } else {
      LowestIsFirst(arns[1..], loads);
      var r := Lowest(arns, loads);
      forall other | other in arns && LoadOf(loads, other) == LoadOf(loads, r) ensures StringLeq(r, other) {
        if r == arns[0] {
          if other == arns[0] { LeqTotal(r, r); } else { assert other in arns[1..]; }
        } else {
          assert other in arns[1..];
        }
      }
    }
  }

  /** Select a listener for a dedicated instance. A provisioning that already has one
      keeps it; with no listener that has room the task raises. */
  function Select(s: State, id: string, provisioning: bool, loads: map<string, nat>): State {
    if id !in s.instances || !s.instances[id].dedicated then s
    else
      var i := s.instances[id];
      var potential := Potential(s, s.rows, i.org);
      if (provisioning && i.listener.Some?) || potential == [] then s
      else
        SortedMembers(potential);
        s.(instances := s.instances[id := i.(listener := Some(Lowest(Sorted(potential), loads)))])
  }

  /** A provisioning that has a listener keeps it. */
  predicate KeepsListener(s: State, id: string, provisioning: bool) {
    id in s.instances && provisioning && s.instances[id].listener.Some?
  }

  /** The selection raises: there is no listener with room. */
  predicate Raises(s: State, id: string, provisioning: bool) {
    && id in s.instances && s.instances[id].dedicated
    && !KeepsListener(s, id, provisioning)
    && Potential(s, s.rows, s.instances[id].org) == []
  }

  // ---- the table ----

  predicate Known(rows: seq<Row>, arn: string) {
    exists i :: 0 <= i < |rows| && rows[i].arn == arn
  }

  /** An insert that does nothing when the listener has a row. */
  function InsertRow(rows: seq<Row>, row: Row): seq<Row> {
    if Known(rows, row.arn) then rows else rows + [row]
  }

  function LoadRows(rows: seq<Row>, config: seq<Row>): seq<Row>
    decreases |config|
  {
    if config == [] then rows else LoadRows(InsertRow(rows, config[0]), config[1..])
  }

  // ---- runs ----

  datatype Event =
    | Reload(config: seq<Row>)
    | CreateShared(id: string, arn: string)
    | CreateDedicated(id: string, org: string)
    | MoveToDedicated(id: string, org: string)
    | SelectListener(id: string, provisioning: bool, loads: map<string, nat>)
    | LeaveDedicated(id: string)
    | DeactivateInstance(id: string)

  const EMPTY := State([], map[])

  function Next(s: State, e: Event): State {
    match e
    case Reload(config) => s.(rows := LoadRows(s.rows, config))
    case CreateShared(id, arn) =>
      if id in s.instances then s else s.(instances := s.instances[id := Instance("", Some(arn), false, false)])
    case CreateDedicated(id, org) =>
      if id in s.instances then s else s.(instances := s.instances[id := Instance(org, None, true, false)])
    case MoveToDedicated(id, org) =>
      if id !in s.instances || s.instances[id].dedicated then s
      else s.(instances := s.instances[id := s.instances[id].(dedicated := true, org := org)])
    case SelectListener(id, provisioning, loads) => Select(s, id, provisioning, loads)
    case LeaveDedicated(id) =>
      if id !in s.instances then s else s.(instances := s.instances[id := s.instances[id].(dedicated := false)])
    case DeactivateInstance(id) =>
      if id !in s.instances then s else s.(instances := s.instances[id := s.instances[id].(deactivated := true)])
  }

  function After(s: State, events: seq<Event>): State
    decreases |events|
  {
    if events == [] then s else After(Next(s, events[0]), events[1..])
  }

  /** Shared and dedicated listeners are disjoint, and an instance that left the
      dedicated plan does not come back to it. */
  predicate Admissible(s: State, e: Event, shared: set<string>) {
    match e
    case Reload(config) => forall i :: 0 <= i < |config| ==> config[i].arn !in shared
    case CreateShared(_, arn) => arn in shared
    case MoveToDedicated(id, _) =>
      id in s.instances && s.instances[id].listener.Some? ==> s.instances[id].listener.value in shared
    case _ => true
  }

  predicate AdmissibleRun(s: State, events: seq<Event>, shared: set<string>)
    decreases |events|
  {
    events == [] || (Admissible(s, events[0], shared) && AdmissibleRun(Next(s, events[0]), events[1..], shared))
  }

  ghost predicate Isolated(s: State, row: Row) {
    && |Occupants(s.instances, row.arn)| <= MAX_CERTS_PER_ALB
    && forall id :: id in Occupants(s.instances, row.arn) ==> s.instances[id].org == row.org
  }

  ghost predicate Sound(s: State, shared: set<string>) {
    && (forall i, j :: 0 <= i < j < |s.rows| ==> s.rows[i].arn != s.rows[j].arn)
    && (forall i :: 0 <= i < |s.rows| ==> s.rows[i].arn !in shared && Isolated(s, s.rows[i]))
    && (forall id :: id in s.instances && s.instances[id].dedicated && s.instances[id].listener.Some? ==>
          s.instances[id].listener.value in shared || Known(s.rows, s.instances[id].listener.value))
  }

  lemma {:induction false} ReloadIsSound(s: State, config: seq<Row>, shared: set<string>)
    requires Sound(s, shared) && forall i :: 0 <= i < |config| ==> config[i].arn !in shared
    ensures Sound(s.(rows := LoadRows(s.rows, config)), shared)
    decreases |config|
  {
    if config != [] {
      InsertIsSound(s, config[0], shared);
      ReloadIsSound(s.(rows := InsertRow(s.rows, config[0])), config[1..], shared);
    }
  }

  /** A new row is for a listener that no dedicated instance is on. */
  lemma InsertIsSound(s: State, row: Row, shared: set<string>)
    requires Sound(s, shared) && row.arn !in shared
    ensures Sound(s.(rows := InsertRow(s.rows, row)), shared)
  {
    if !Known(s.rows, row.arn) {
      var s' := s.(rows := s.rows + [row]);
      assert Occupants(s.instances, row.arn) == {};
      forall arn | Known(s.rows, arn) ensures Known(s'.rows, arn) {
        var i :| 0 <= i < |s.rows| && s.rows[i].arn == arn;
        assert s'.rows[i].arn == arn;
      }
    }
  }

  /** An instance that joins no listener changes no listener for the worse. */
  lemma ChangeIsSound(s: State, id: string, i: Instance, shared: set<string>)
    requires Sound(s, shared)
    requires i.dedicated && i.listener.Some? ==>
               || i.listener.value in shared
               || (id in s.instances && s.instances[id].dedicated && i.listener == s.instances[id].listener)
    requires id in s.instances && s.instances[id].dedicated && i.dedicated ==> i.org == s.instances[id].org
    requires id in s.instances && s.instances[id].deactivated ==> i.deactivated
    ensures Sound(s.(instances := s.instances[id := i]), shared)
  {
    var s' := s.(instances := s.instances[id := i]);
    forall k | 0 <= k < |s.rows| ensures Isolated(s', s.rows[k]) {
      assert Isolated(s, s.rows[k]);
      assert Occupants(s'.instances, s.rows[k].arn) <= Occupants(s.instances, s.rows[k].arn);
      SubsetSize(Occupants(s'.instances, s.rows[k].arn), Occupants(s.instances, s.rows[k].arn));
    }
  }

  lemma SubsetSize(a: set<string>, b: set<string>)
    requires a <= b
    ensures |a| <= |b|
  {
    assert b == a + (b - a);
  }

  /** A selection joins a listener of its organization that had room. */
  lemma SelectIsSound(s: State, id: string, provisioning: bool, loads: map<string, nat>, shared: set<string>)
    requires Sound(s, shared)
    ensures Sound(Select(s, id, provisioning, loads), shared)
  {
    var s' := Select(s, id, provisioning, loads);
    if s' != s {
      var arn := s'.instances[id].listener.value;
      SelectedRow(s, id, provisioning, loads);
      var n :| 0 <= n < |s.rows| && s.rows[n].arn == arn && HasRoom(s, s.rows[n], s.instances[id].org);
      forall k | 0 <= k < |s.rows| ensures Isolated(s', s.rows[k]) {
        assert Isolated(s, s.rows[k]);
        if k == n {
          assert Occupants(s'.instances, arn) <= Occupants(s.instances, arn) + {id};
          SubsetSize(Occupants(s'.instances, arn), Occupants(s.instances, arn) + {id});
        } else {
          assert s.rows[k].arn != arn;
          assert Occupants(s'.instances, s.rows[k].arn) <= Occupants(s.instances, s.rows[k].arn);
          SubsetSize(Occupants(s'.instances, s.rows[k].arn), Occupants(s.instances, s.rows[k].arn));
        }
      }
      assert Known(s'.rows, arn);
    }
  }

  lemma SelectedRow(s: State, id: string, provisioning: bool, loads: map<string, nat>)
    requires Select(s, id, provisioning, loads) != s
    ensures id in s.instances && Select(s, id, provisioning, loads).instances[id].listener.Some?
    ensures var arn := Select(s, id, provisioning, loads).instances[id].listener.value;
            exists i :: 0 <= i < |s.rows| && s.rows[i].arn == arn && HasRoom(s, s.rows[i], s.instances[id].org)
  {
    var potential := Potential(s, s.rows, s.instances[id].org);
    SortedMembers(potential);
    PotentialIs(s, s.rows, s.instances[id].org);
  }

  lemma NextIsSound(s: State, e: Event, shared: set<string>)
    requires Sound(s, shared) && Admissible(s, e, shared)
    ensures Sound(Next(s, e), shared)
  {
    match e {
      case Reload(config) => ReloadIsSound(s, config, shared);
      case CreateShared(id, arn) =>
        if id !in s.instances { ChangeIsSound(s, id, Instance("", Some(arn), false, false), shared); }
      case CreateDedicated(id, org) =>
        if id !in s.instances { ChangeIsSound(s, id, Instance(org, None, true, false), shared); }
      case MoveToDedicated(id, org) =>
        if id in s.instances && !s.instances[id].dedicated {
          ChangeIsSound(s, id, s.instances[id].(dedicated := true, org := org), shared);
        }
      case SelectListener(id, provisioning, loads) => SelectIsSound(s, id, provisioning, loads, shared);
      case LeaveDedicated(id) =>
        if id in s.instances { ChangeIsSound(s, id, s.instances[id].(dedicated := false), shared); }
      case DeactivateInstance(id) =>
        if id in s.instances { ChangeIsSound(s, id, s.instances[id].(deactivated := true), shared); }
    }
  }

  lemma {:induction false} AfterIsSound(s: State, events: seq<Event>, shared: set<string>)
    requires Sound(s, shared) && AdmissibleRun(s, events, shared)
    ensures Sound(After(s, events), shared)
    decreases |events|
  {
    hide Sound, Next;
    if events != [] {
      NextIsSound(s, events[0], shared);
      AfterIsSound(Next(s, events[0]), events[1..], shared);
    }
  }

  // ---- main results ----

  /** No dedicated listener ever has more active dedicated instances than its limit,
      and all of them are of its organization. */
  lemma CapacityAndIsolation(events: seq<Event>, shared: set<string>)
    requires AdmissibleRun(EMPTY, events, shared)
    ensures var s := After(EMPTY, events);
            forall i :: 0 <= i < |s.rows| ==>
              && |Occupants(s.instances, s.rows[i].arn)| <= MAX_CERTS_PER_ALB
              && (forall id :: id in Occupants(s.instances, s.rows[i].arn) ==> s.instances[id].org == s.rows[i].org)
              && forall id :: id in s.instances && s.instances[id].listener == Some(s.rows[i].arn) ==>
                   (s.instances[id].dedicated && !s.instances[id].deactivated
                    <==> id in Occupants(s.instances, s.rows[i].arn))
  {
    AfterIsSound(EMPTY, events, shared);
    var s := After(EMPTY, events);
    assert forall i :: 0 <= i < |s.rows| ==> Isolated(s, s.rows[i]);
  }

  /** Rows are only ever added: whatever the configuration says later, a listener
      keeps the organization it was first loaded with. */
  lemma {:induction false} OrganizationsStay(s: State, events: seq<Event>)
    ensures s.rows <= After(s, events).rows
    decreases |events|
  {
    if events != [] {
      if events[0].Reload? { RowsStay(s.rows, events[0].config); }
      OrganizationsStay(Next(s, events[0]), events[1..]);
    }
  }

  lemma {:induction false} RowsStay(rows: seq<Row>, config: seq<Row>)
    ensures rows <= LoadRows(rows, config)
    decreases |config|
  {
    if config != [] { RowsStay(InsertRow(rows, config[0]), config[1..]); }
  }

  predicate Roomy(s: State, org: string, arn: string) {
    exists i :: 0 <= i < |s.rows| && s.rows[i].arn == arn && HasRoom(s, s.rows[i], org)
  }

  /** Anything but the listener of the instance is as it was. */
  predicate OnlyListener(s: State, s': State, id: string)
    requires id in s.instances
  {
    && id in s'.instances
    && s' == s.(instances := s.instances[id := s.instances[id].(listener := s'.instances[id].listener)])
  }

  /** What a selection does for a dedicated instance. A provisioning started again changes
      nothing, and neither does a selection for which no listener has room: that one
      raises. Any other one puts the instance, wherever it was, on a listener of its
      organization that had room, and changes nothing else. */
  lemma SelectionIsExact(s: State, id: string, provisioning: bool, loads: map<string, nat>)
    requires id in s.instances && s.instances[id].dedicated
    ensures var s', org := Select(s, id, provisioning, loads), s.instances[id].org;
            && (Raises(s, id, provisioning)
                <==> !KeepsListener(s, id, provisioning)
                     && forall i :: 0 <= i < |s.rows| ==> !HasRoom(s, s.rows[i], org))
            && if KeepsListener(s, id, provisioning) || Raises(s, id, provisioning) then s' == s
               else && OnlyListener(s, s', id) && s'.instances[id].listener.Some?
                    && Roomy(s, org, s'.instances[id].listener.value)
  {
    var org := s.instances[id].org;
    var potential := Potential(s, s.rows, org);
    PotentialIs(s, s.rows, org);
    SortedMembers(potential);
    if potential != [] {
      assert potential[0] in potential;
      var i :| 0 <= i < |s.rows| && s.rows[i].arn == potential[0] && HasRoom(s, s.rows[i], org);
    }
    if i :| 0 <= i < |s.rows| && HasRoom(s, s.rows[i], org) { assert s.rows[i].arn in potential; }
  }

  /** The listener selected is the least used in AWS of those with room in the
      database, and among equals the first by ARN. */
  lemma SelectsTheLeastUsed(s: State, id: string, provisioning: bool, loads: map<string, nat>, i: nat)
    requires id in s.instances && s.instances[id].dedicated && !KeepsListener(s, id, provisioning)
    requires i < |s.rows| && HasRoom(s, s.rows[i], s.instances[id].org)
    ensures Select(s, id, provisioning, loads).instances[id].listener.Some?
    ensures var chosen := Select(s, id, provisioning, loads).instances[id].listener.value;
            && LoadOf(loads, chosen) <= LoadOf(loads, s.rows[i].arn)
            && (LoadOf(loads, chosen) == LoadOf(loads, s.rows[i].arn) ==> StringLeq(chosen, s.rows[i].arn))
  {
    var potential := Potential(s, s.rows, s.instances[id].org);
    PotentialIs(s, s.rows, s.instances[id].org);
    assert s.rows[i].arn in potential;
    SortedMembers(potential);
    SortedIsOrdered(potential);
    LowestIsFirst(Sorted(potential), loads);
  }

  /** The count includes the instance itself, so a renewal never stays on a listener
      that is full: it moves, or finds no listener and raises. */
  lemma FullListenerIsLeft(s: State, id: string, loads: map<string, nat>, shared: set<string>)
    requires Sound(s, shared) && id in s.instances && s.instances[id].listener.Some?
    requires |Occupants(s.instances, s.instances[id].listener.value)| == MAX_CERTS_PER_ALB
    ensures var s' := Select(s, id, false, loads);
            s' == s || s'.instances[id].listener != s.instances[id].listener
  {
    var s' := Select(s, id, false, loads);
    if s' != s { SelectedRow(s, id, false, loads); }
  }
}
