/**
  The placement code as it works on the database: the loop that loads the listener
  table, the query that counts, the list that is sorted and searched.
 */
module ListenerBodies {
  import opened Wrappers
  import opened Strings
  import opened Listeners

  class Placement {
    var rows: seq<Row>
    var instances: map<string, Instance>

    constructor ()
      ensures Snapshot() == EMPTY
    {
      rows, instances := [], map[];
    }

    function Snapshot(): State
      reads this
    {
      State(rows, instances)
    }

    /** Insert each listener, leaving the rows that are there; an empty configuration
        raises. */
    method LoadAlbListeners(config: seq<Row>) returns (ok: bool)
      modifies `rows
      ensures ok <==> config != []
      ensures rows == LoadRows(old(rows), config)
    {
      var i := 0;
      while i < |config|
        invariant 0 <= i <= |config|
        invariant LoadRows(rows, config[i..]) == LoadRows(old(rows), config)
      {
        assert config[i..][1..] == config[i + 1..];
        if !Known(rows, config[i].arn) { rows := rows + [config[i]]; }
        i := i + 1;
      }
      ok := config != [];
    }

    method GetPotentialListeners(org: string) returns (arns: seq<string>)
      ensures arns == Potential(Snapshot(), rows, org)
    {
      arns := [];
      var i := 0;
      while i < |rows|
        invariant 0 <= i <= |rows|
        invariant arns + Potential(Snapshot(), rows[i..], org) == Potential(Snapshot(), rows, org)
      {
        assert rows[i..][1..] == rows[i + 1..];
        if rows[i].org == org && |Occupants(instances, rows[i].arn)| < MAX_CERTS_PER_ALB {
          arns := arns + [rows[i].arn];
        }
        i := i + 1;
      }
    }

    static method GetLowestUsed(arns: seq<string>, loads: map<string, nat>) returns (arn: string)
      requires arns != []
      ensures arn == Lowest(arns, loads)
    {
      var i := |arns| - 1;
      arn := arns[i];
      while i > 0
        invariant 0 <= i < |arns| && arn == Lowest(arns[i..], loads)
        decreases i
      {
        i := i - 1;
        assert arns[i..][1..] == arns[i + 1..];
        if LoadOf(loads, arns[i]) <= LoadOf(loads, arn) { arn := arns[i]; }
      }
      assert arns[0..] == arns;
    }

    method SelectDedicatedAlb(id: string, provisioning: bool, loads: map<string, nat>) returns (ok: bool)
      requires id in instances && instances[id].dedicated
      modifies `instances
      ensures Snapshot() == Select(old(Snapshot()), id, provisioning, loads)
      ensures ok <==> !Raises(old(Snapshot()), id, provisioning)
    {
      var instance := instances[id];
      if provisioning && instance.listener.Some? { return true; }
      var potential := GetPotentialListeners(instance.org);
      if potential == [] { return false; }
      SortedMembers(potential);
      var arn := GetLowestUsed(Sorted(potential), loads);
      instances := instances[id := instance.(listener := Some(arn))];
      ok := true;
    }
  }
}
