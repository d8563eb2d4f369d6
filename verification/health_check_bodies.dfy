/**
  The health-check, Shield and alarm tasks as they work on the instance row and on
  AWS, each proved to do what its function in module HealthChecks says.
 */
module HealthCheckBodies {
  import opened Wrappers
  import opened HealthChecks

  class Monitored {
    var domains: seq<string>
    var checks: Option<seq<Check>>
    var associated: Option<Check>
    var alarms: Option<seq<nat>>
    var topic: bool
    var health: map<nat, string>
    var references: map<nat, Check>
    var isProtected: bool
    var shielded: Option<nat>
    var alarmed: set<nat>
    var nextId: nat

    constructor (domains: seq<string>, topic: bool, isProtected: bool)
      ensures Snapshot() == State(domains, None, None, None, topic, map[], map[], isProtected, None, {}, 0)
    {
      this.domains, this.topic, this.isProtected := domains, topic, isProtected;
      checks, associated, alarms, shielded := None, None, None, None;
      health, references, alarmed, nextId := map[], map[], {}, 0;
    }

    function Snapshot(): State
      reads this
    {
      State(domains, checks, associated, alarms, topic, health, references, isProtected, shielded, alarmed, nextId)
    }

    /** The domains that no check is recorded for. */
    method DomainsToCreate(recorded: seq<Check>) returns (todo: seq<string>)
      ensures todo == Unchecked(domains, recorded)
    {
      todo := [];
      var i := 0;
      while i < |domains|
        invariant 0 <= i <= |domains|
        invariant todo + Unchecked(domains[i..], recorded) == Unchecked(domains, recorded)
      {
        assert domains[i..][1..] == domains[i + 1..];
        if !Has(recorded, domains[i]) { todo := todo + [domains[i]]; }
        i := i + 1;
      }
    }

    /** One call to Route 53; it raises when the reference was used for something else. */
    method CreateHealthCheck(index: nat, domain: string) returns (id: Option<nat>)
      modifies `health, `references, `nextId
      ensures id == var made := Made(old(Snapshot()), index, domain); if made.Some? then Some(made.value.id) else None
      ensures id.Some? ==> Create(old(Snapshot()), index, domain).Some?
      ensures id.Some? ==> var s := Create(old(Snapshot()), index, domain).value;
                           health == s.health && references == s.references && nextId == s.nextId
      ensures id.None? ==> Snapshot() == old(Snapshot())
    {
      if index in references {
        if references[index].domain != domain || references[index].id !in health { return None; }
        return Some(references[index].id);
      }
      id := Some(nextId);
      health := health[nextId := domain];
      references := references[index := Check(domain, nextId)];
      nextId := nextId + 1;
    }

    /** Create a check for each of the domains, appending it to the list. */
    method CreateHealthChecks(todo: seq<string>) returns (ok: bool)
      modifies `checks, `health, `references, `nextId
      ensures ok <==> CreateAll(old(Snapshot()), todo, 0).Some?
      ensures ok ==> Snapshot() == CreateAll(old(Snapshot()), todo, 0).value
    {
      var i := 0;
      while i < |todo|
        invariant 0 <= i <= |todo|
        invariant CreateAll(Snapshot(), todo[i..], i) == CreateAll(old(Snapshot()), todo, 0)
      {
        assert todo[i..][1..] == todo[i + 1..];
        ghost var s := Snapshot();
        var id := CreateHealthCheck(i, todo[i]);
        if id.None? {
          assert Create(s, i, todo[i]).None?;
          return false;
        }
        var existing := if checks.Some? then checks.value else [];
        checks := Some(existing + [Check(todo[i], id.value)]);
        assert Create(s, i, todo[i]) == Some(Snapshot());
        i := i + 1;
      }
      ok := true;
    }

    /** When it raises, the list is rolled back; what AWS has made stays. */
    method CreateNewHealthChecks() returns (ok: bool)
      modifies `checks, `health, `references, `nextId
      ensures ok <==> CreateNew(old(Snapshot())).Some?
      ensures ok ==> Snapshot() == CreateNew(old(Snapshot())).value
      ensures !ok ==> checks == old(checks)
    {
      var before := checks;
      var todo := DomainsToCreate(if checks.Some? then checks.value else []);
      ok := true;
      if |todo| > 0 {
        ok := CreateHealthChecks(todo);
        checks := if ok then Some(ByDomain(if checks.Some? then checks.value else [])) else before;
      }
    }

    method DisassociateHealthCheck()
      modifies `associated, `shielded
      ensures associated.None?
      ensures shielded == if old(associated).Some? then None else old(shielded)
    {
      if associated.Some? {
        shielded := None;
        associated := None;
      }
    }

    method AssociateHealthCheck() returns (ok: bool)
      modifies `associated, `shielded
      ensures ok <==> Associate(old(Snapshot())).Some?
      ensures ok ==> Snapshot() == Associate(old(Snapshot())).value
      ensures !ok ==> Snapshot() == old(Snapshot())
    {
      if !isProtected { return false; }
      if checks.Some? && |checks.value| > 0 {
        associated := Some(checks.value[0]);
        shielded := Some(checks.value[0].id);
      }
      ok := true;
    }

    /** When it raises, the row is as it was; AWS may have lost the association. */
    method UpdateAssociatedHealthCheck() returns (ok: bool)
      modifies `associated, `shielded
      ensures ok <==> UpdateAssociated(old(Snapshot())).Some?
      ensures ok ==> Snapshot() == UpdateAssociated(old(Snapshot())).value
      ensures !ok ==> associated == old(associated)
    {
      var before := associated;
      if associated.Some? && associated.value.domain !in domains { DisassociateHealthCheck(); }
      if associated.None? {
        var first := FirstWanted(if checks.Some? then checks.value else [], domains);
        if first.Some? {
          if !isProtected {
            associated := before;
            return false;
          }
          associated := first;
          shielded := Some(first.value.id);
        }
      }
      ok := true;
    }

    method DeleteUnusedHealthChecks()
      modifies `checks, `health
      ensures Snapshot() == DeleteUnused(old(Snapshot()))
    {
      var todo := Unwanted(if checks.Some? then checks.value else [], domains);
      var i := 0;
      while i < |todo|
        invariant 0 <= i <= |todo|
        invariant DeleteAll(Snapshot(), todo[i..]) == DeleteAll(old(Snapshot()), todo)
      {
        assert todo[i..][1..] == todo[i + 1..];
        ghost var s := Snapshot();
        health := health - {todo[i].id};
        checks := Some(WithoutId(if checks.Some? then checks.value else [], todo[i].id));
        assert Snapshot() == s.(health := s.health - {todo[i].id}, checks := Some(WithoutId(Recorded(s), todo[i].id)));
        i := i + 1;
      }
    }

    method DeleteHealthCheckAlarms()
      modifies `alarms, `alarmed
      ensures Snapshot() == DeleteAlarms(old(Snapshot()))
    {
      var names := if alarms.Some? then alarms.value else [];
      if |names| > 0 {
        alarmed := alarmed - set a | a in names;
        alarms := Some([]);
      }
    }

    method CreateHealthCheckAlarms() returns (ok: bool)
      modifies `alarms, `alarmed
      ensures ok <==> CreateAlarms(old(Snapshot())).Some?
      ensures ok ==> Snapshot() == CreateAlarms(old(Snapshot())).value
      ensures !ok ==> Snapshot() == old(Snapshot())
    {
      if !topic { return false; }
      var recorded := if checks.Some? then checks.value else [];
      if |recorded| > 0 {
        var names: seq<nat> := [];
        var i := 0;
        while i < |recorded|
          invariant 0 <= i <= |recorded| && names == IdList(recorded[..i])
          invariant alarmed == old(alarmed) + Ids(recorded[..i])
        {
          assert recorded[..i + 1] == recorded[..i] + [recorded[i]];
          assert Ids(recorded[..i + 1]) == Ids(recorded[..i]) + {recorded[i].id} by {
            assert forall c :: c in recorded[..i + 1] <==> c in recorded[..i] || c == recorded[i];
          }
          alarmed := alarmed + {recorded[i].id};
          names := names + [recorded[i].id];
          i := i + 1;
        }
        assert recorded[..i] == recorded;
        alarms := Some(names);
      }
      ok := true;
    }
  }
}
