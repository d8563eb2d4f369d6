/**
  The task bodies, as they work on the service instance row and on AWS: fields
  assigned one by one, loops that commit as they go. Each is proved to do what its
  function in module Tasks says, whatever call it fails at.

  `budget` is how many external calls succeed before one fails; a body returns
  false where the original raises.
 */
module TaskBodies {
  import opened Wrappers
  import opened Records
  import Tasks
  import D = Deprovisioning

  /** AWS, the certificate authority and the configuration, with only the effects
      that the tasks rely on. */
  class World {
    var iam: set<Arn>
    var attached: map<Listener, set<Arn>>
    var served: map<nat, Arn>
    var alias: map<string, Alias>
    var txt: map<string, Txt>
    var insync: set<nat>
    var authorized: set<string>
    var answers: seq<Answer>
    var shared: seq<Listener>
    var dedicated: seq<Listener>
    var nextId: nat
    var nextChange: nat

    constructor (shared: seq<Listener>, dedicated: seq<Listener>)
      ensures iam == {} && attached == map[] && served == map[] && alias == map[] && txt == map[]
      ensures insync == {} && authorized == {} && answers == [] && nextId == 0 && nextChange == 0
      ensures this.shared == shared && this.dedicated == dedicated
    {
      iam, attached, served, alias, txt := {}, map[], map[], map[], map[];
      insync, authorized, answers, nextId, nextChange := {}, {}, [], 0, 0;
      this.shared, this.dedicated := shared, dedicated;
    }

    method NewId() returns (id: nat)
      modifies `nextId
      ensures id == old(nextId) && nextId == id + 1
    {
      id := nextId;
      nextId := nextId + 1;
    }

    method UpsertTxt(domain: string, contents: Token) returns (change: nat)
      modifies `txt, `nextChange
      ensures change == old(nextChange) && nextChange == change + 1
      ensures txt == old(txt)[domain := Txt(contents, change)]
    {
      change := nextChange;
      txt := txt[domain := Txt(contents, change)];
      nextChange := nextChange + 1;
    }

    method UpsertAlias(domain: string, target: Target) returns (change: nat)
      modifies `alias, `nextChange
      ensures change == old(nextChange) && nextChange == change + 1
      ensures var stale := if domain in old(alias) then Visible(old(alias)[domain], insync) else {};
              alias == old(alias)[domain := Alias(target, change, stale)]
    {
      change := nextChange;
      var stale := if domain in alias then Visible(alias[domain], insync) else {};
      alias := alias[domain := Alias(target, change, stale)];
      nextChange := nextChange + 1;
    }

    method AwaitChange(change: nat)
      modifies `insync
      ensures insync == old(insync) + {change}
    {
      insync := insync + {change};
    }

    method CreateDistribution(arn: Arn) returns (id: nat)
      modifies `served, `nextId
      ensures id == old(nextId) && nextId == id + 1 && served == old(served)[id := arn]
    {
      id := nextId;
      served := served[id := arn];
      nextId := nextId + 1;
    }

    method AddListenerCertificate(l: Listener, arn: Arn)
      requires l in attached
      modifies `attached
      ensures attached == old(attached)[l := old(attached)[l] + {arn}]
    {
      attached := attached[l := attached[l] + {arn}];
    }

    method RemoveListenerCertificate(l: Listener, arn: Arn)
      requires l in attached
      modifies `attached
      ensures attached == old(attached)[l := old(attached)[l] - {arn}]
    {
      attached := attached[l := attached[l] - {arn}];
    }
  }

  /** The service instance row with its certificate rows. */
  class ServiceInstance {
    var domains: seq<string>
    var user: Option<nat>
    var current: Option<nat>
    var pending: Option<nat>
    var albCertificate: Option<nat>
    var listener: Option<Listener>
    var previous: Option<Listener>
    var distribution: Option<nat>
    var internal: Option<Target>
    var changeIds: seq<nat>
    var certificates: map<nat, Certificate>

    constructor (domains: seq<string>)
      ensures this.domains == domains && changeIds == [] && certificates == map[]
      ensures user.None? && current.None? && pending.None? && albCertificate.None?
      ensures listener.None? && previous.None? && distribution.None? && internal.None?
    {
      this.domains, changeIds, certificates := domains, [], map[];
      user, current, pending, albCertificate := None, None, None, None;
      listener, previous, distribution, internal := None, None, None, None;
    }

    function Snapshot(w: World): State
      reads this, w
    {
      State(domains, user, current, pending, albCertificate, listener, previous, distribution, internal, changeIds,
            certificates, w.iam, w.attached, w.served, w.alias, w.txt, w.insync, w.authorized, w.answers,
            w.shared, w.dedicated, w.nextId, w.nextChange)
    }

    // ---- broker/tasks/letsencrypt.py ----

    method CreateUser(w: World, budget: nat) returns (ok: bool)
      modifies this, w
      ensures Tasks.CreateUser(old(Snapshot(w)), budget) == Tasks.Outcome(Snapshot(w), ok)
    {
      if user.Some? { return true; }
      if budget == 0 { return false; }
      var id := w.NewId();
      user := Some(id);
      ok := true;
    }

    method GeneratePrivateKey(w: World, budget: nat) returns (ok: bool)
      modifies this, w
      ensures Tasks.GenerateKey(old(Snapshot(w)), budget) == Tasks.Outcome(Snapshot(w), ok)
    {
      if pending.Some? { return true; }
      if budget == 0 { return false; }
      var id := w.NewId();
      certificates := certificates[id := Certificate(domains, None, [], false, None)];
      pending := Some(id);
      ok := true;
    }

    /** The challenges of an order for these names; a domain without an authorization
        raises. */
    static method DrawChallenges(order: nat, authorized: set<string>, domains: seq<string>, names: seq<string>)
      returns (ok: bool, challenges: seq<Challenge>)
      ensures ok <==> !exists d :: d in domains && d !in names
      ensures ok ==> challenges == Tasks.NewChallenges(order, authorized, domains)
    {
      challenges := [];
      var i := 0;
      while i < |domains|
        invariant 0 <= i == |challenges| <= |domains|
        invariant forall j :: 0 <= j < i ==>
                    domains[j] in names && challenges[j] == Tasks.NewChallenge(order, authorized, domains[j])
      {
        if domains[i] !in names { return false, []; }
        challenges := challenges + [Tasks.NewChallenge(order, authorized, domains[i])];
        i := i + 1;
      }
      ok := true;
    }

    method InitiateChallenges(w: World, budget: nat) returns (ok: bool)
      modifies this, w
      ensures Tasks.InitiateChallenges(old(Snapshot(w)), budget) == Tasks.Outcome(Snapshot(w), ok)
    {
      if pending.None? || pending.value !in certificates { return false; }
      var row := certificates[pending.value];
      if row.order.Some? { return true; }
      if user.None? || budget == 0 { return false; }
      var challenges;
      ok, challenges := DrawChallenges(w.nextId, w.authorized, domains, row.names);
      if ok {
        var order := w.NewId();
        certificates := certificates[pending.value := row.(order := Some(order), challenges := challenges)];
      }
    }

    method AnswerChallenges(w: World, budget: nat) returns (ok: bool)
      modifies this, w
      ensures Tasks.AnswerChallenges(old(Snapshot(w)), budget) == Tasks.Outcome(Snapshot(w), ok)
    {
      if pending.None? || pending.value !in certificates { return false; }
      var id := pending.value;
      var n := |certificates[id].challenges|;
      var i, left := 0, budget;
      while i < n
        invariant id in certificates && n == |certificates[id].challenges| && 0 <= i <= n
        invariant Tasks.AnswerFrom(Snapshot(w), id, i, left) == Tasks.AnswerFrom(old(Snapshot(w)), id, 0, budget)
      {
        var row := certificates[id];
        var c := row.challenges[i];
        if !c.answered {
          if left == 0 { return false; }
          ghost var s := Snapshot(w);
          if !c.alreadyValid {
            var written := c.domain in w.txt && w.txt[c.domain].contents == c.contents;
            var live := written && w.txt[c.domain].change in w.insync;
            w.answers := w.answers + [Answer(id, c.domain, live)];
          }
          certificates := certificates[id := row.(challenges := row.challenges[i := c.(answered := true)])];
          assert Snapshot(w) == Tasks.AnswerOne(s, id, i);
          left := left - 1;
        }
        i := i + 1;
      }
      ok := true;
    }

    method RetrieveCertificate(w: World, budget: nat) returns (ok: bool)
      modifies this
      ensures Tasks.RetrieveCertificate(old(Snapshot(w)), budget) == Tasks.Outcome(Snapshot(w), ok)
    {
      if pending.None? || pending.value !in certificates { return false; }
      var row := certificates[pending.value];
      if row.leaf { return true; }
      if row.order.None? || budget == 0 || !Tasks.AllAnswered(row.challenges) { return false; }
      certificates := certificates[pending.value := row.(leaf := true)];
      ok := true;
    }

    /** The validation-failure path of the same task. */
    method ForgetRejectedOrder(w: World)
      modifies this
      ensures Snapshot(w) == Tasks.RejectOrder(old(Snapshot(w)))
    {
      if pending.None? || pending.value !in certificates { return; }
      if certificates[pending.value].leaf || certificates[pending.value].order.None? { return; }
      certificates := certificates - {pending.value};
      pending := None;
    }

    // ---- broker/tasks/route53.py ----

    method CreateTxtRecords(w: World, budget: nat) returns (ok: bool)
      modifies this, w
      ensures Tasks.CreateTxtRecords(old(Snapshot(w)), budget) == Tasks.Outcome(Snapshot(w), ok)
    {
      if pending.None? || pending.value !in certificates { return false; }
      var challenges := certificates[pending.value].challenges;
      var i, left := 0, budget;
      while i < |challenges|
        invariant 0 <= i <= |challenges|
        invariant Tasks.UpsertTxts(Snapshot(w), challenges[i..], left)
               == Tasks.UpsertTxts(old(Snapshot(w)), challenges, budget)
      {
        assert challenges[i..][1..] == challenges[i + 1..];
        var c := challenges[i];
        if !c.answered {
          if left == 0 { return false; }
          ghost var s := Snapshot(w);
          var change := w.UpsertTxt(c.domain, c.contents);
          changeIds := changeIds + [change];
          assert Snapshot(w) == Tasks.UpsertTxt(s, c);
          left := left - 1;
        }
        i := i + 1;
      }
      ok := true;
    }

    /** The ids are copied first; each is taken off the stored list, by value, once
        its change is in sync. */
    method WaitForChanges(w: World, budget: nat) returns (ok: bool)
      modifies this, w
      ensures Tasks.WaitForChanges(old(Snapshot(w)), budget) == Tasks.Outcome(Snapshot(w), ok)
      ensures exists k :: 0 <= k <= |old(changeIds)| && changeIds == old(changeIds)[k..]
    {
      var ids := changeIds;
      var i, left := 0, budget;
      while i < |ids|
        invariant 0 <= i <= |ids| && changeIds == ids[i..]
        invariant Tasks.WaitForChanges(Snapshot(w), left) == Tasks.WaitForChanges(old(Snapshot(w)), budget)
      {
        if left == 0 { return false; }
        ghost var s := Snapshot(w);
        w.AwaitChange(ids[i]);
        changeIds := RemoveFirst(changeIds, ids[i]);
        assert Snapshot(w) == Tasks.WaitOne(s);
        left := left - 1;
        i := i + 1;
      }
      ok := true;
    }

    method RemoveOldDnsRecords(w: World) returns (ok: bool)
      modifies w
      ensures Tasks.RemoveOldDnsRecords(old(Snapshot(w))) == Tasks.Outcome(Snapshot(w), ok)
    {
      if current.None? || current.value !in certificates { return false; }
      var challenges := certificates[current.value].challenges;
      var i := 0;
      while i < |challenges|
        invariant 0 <= i <= |challenges|
        invariant Tasks.DeleteOlds(Snapshot(w), challenges[i..]) == Tasks.DeleteOlds(old(Snapshot(w)), challenges)
      {
        assert challenges[i..][1..] == challenges[i + 1..];
        var c := challenges[i];
        if c.domain !in domains {
          ghost var s := Snapshot(w);
          if c.domain in w.txt && w.txt[c.domain].contents == c.contents { w.txt := w.txt - {c.domain}; }
          if c.domain in w.alias && Some(w.alias[c.domain].target) == internal { w.alias := w.alias - {c.domain}; }
          assert Snapshot(w) == Tasks.DeleteOldRecords(s, c);
        }
        i := i + 1;
      }
      ok := true;
    }

    method PointAlias(w: World, domain: string)
      requires internal.Some?
      modifies this, w
      ensures Snapshot(w) == Tasks.UpsertAlias(old(Snapshot(w)), domain, old(internal).value)
    {
      var change := w.UpsertAlias(domain, internal.value);
      changeIds := changeIds + [change];
    }

    method CreateAliasRecords(w: World, budget: nat) returns (ok: bool)
      modifies this, w
      ensures Tasks.CreateAliasRecords(old(Snapshot(w)), budget) == Tasks.Outcome(Snapshot(w), ok)
    {
      var i, left := 0, budget;
      while i < |domains|
        invariant domains == old(domains) && 0 <= i <= |domains|
        invariant Tasks.UpsertAliases(Snapshot(w), domains[i..], left)
               == Tasks.UpsertAliases(old(Snapshot(w)), old(domains), budget)
      {
        assert domains[i..][1..] == domains[i + 1..];
        if left == 0 || internal.None? { return false; }
        PointAlias(w, domains[i]);
        left := left - 1;
        i := i + 1;
      }
      ok := true;
    }

    // ---- broker/tasks/iam.py ----

    method UploadServerCertificate(w: World, partition: Partition, budget: nat) returns (ok: bool)
      modifies this, w
      ensures Tasks.UploadServerCertificate(old(Snapshot(w)), partition, budget) == Tasks.Outcome(Snapshot(w), ok)
    {
      if pending.None? || pending.value !in certificates { return false; }
      var row := certificates[pending.value];
      if row.arn.Some? { return true; }
      if !row.leaf || budget == 0 { return false; }
      var arn := Own(partition, pending.value);
      w.iam := w.iam + {arn};
      certificates := certificates[pending.value := row.(arn := Some(arn))];
      ok := true;
    }

    /** Delete an IAM certificate unless it is gone already; IAM refuses one in use. */
    method DeleteServerCertificate(w: World, arn: Arn) returns (ok: bool)
      modifies w`iam
      ensures ok <==> !(arn in old(w.iam) && Tasks.InUse(old(Snapshot(w)), arn))
      ensures w.iam == if ok then old(w.iam) - {arn} else old(w.iam)
    {
      if arn in w.iam {
        if (exists l :: l in w.attached && arn in w.attached[l]) || (exists d :: d in w.served && arn == w.served[d]) {
          return false;
        }
        w.iam := w.iam - {arn};
      }
      ok := true;
    }

    /** Delete the IAM certificates of these rows one by one. */
    method DeleteServerCertificates(w: World, partition: Partition, todo: seq<nat>, budget: nat) returns (ok: bool)
      requires forall id :: id in todo ==> id in certificates
      modifies w`iam
      ensures Tasks.DeleteFromIam(old(Snapshot(w)), partition, todo, budget) == Tasks.Outcome(Snapshot(w), ok)
    {
      hide Tasks.InUse;
      var i, left := 0, budget;
      while i < |todo|
        invariant 0 <= i <= |todo|
        invariant Tasks.DeleteFromIam(Snapshot(w), partition, todo[i..], left)
               == Tasks.DeleteFromIam(old(Snapshot(w)), partition, todo, budget)
      {
        assert todo[i..][1..] == todo[i + 1..];
        assert todo[i] in todo;
        if left == 0 || certificates[todo[i]].arn.None? { return false; }
        ghost var s := Snapshot(w);
        var deleted := DeleteServerCertificate(w, Own(partition, todo[i]));
        if !deleted { return false; }
        assert Snapshot(w) == s.(iam := s.iam - {Own(partition, todo[i])});
        left := left - 1;
        i := i + 1;
      }
      ok := true;
    }

    /** The rows go together, once all their IAM certificates are gone. */
    method DeletePreviousCertificates(w: World, partition: Partition, budget: nat) returns (ok: bool)
      modifies `certificates, w`iam
      ensures Tasks.DeletePreviousCertificates(old(Snapshot(w)), partition, budget) == Tasks.Outcome(Snapshot(w), ok)
    {
      hide Tasks.DeleteFromIam;
      var others := if current.None? then certificates.Keys else certificates.Keys - {current.value};
      ok := DeleteServerCertificates(w, partition, Ascending(others), budget);
      if ok { certificates := certificates - others; }
    }

    // ---- broker/tasks/alb.py ----

    /** List the certificates of each listener, sort the listeners by how many they
        have, and take the first. */
    static method GetLowestUsedAlb(w: World, listeners: seq<Listener>) returns (lowest: Option<Listener>)
      ensures lowest == if listeners == [] then None else Some(Lowest(listeners, w.attached))
    {
      var loads: seq<Used> := [];
      var i := 0;
      while i < |listeners|
        invariant 0 <= i <= |listeners| && loads == Loads(listeners[..i], w.attached)
      {
        assert listeners[..i + 1] == listeners[..i] + [listeners[i]];
        LoadsAppend(listeners[..i], listeners[i], w.attached);
        loads := loads + [Used(listeners[i], Load(w.attached, listeners[i]))];
        i := i + 1;
      }
      assert listeners[..i] == listeners;
      if |loads| == 0 { return None; }
      var sorted := SortByLoad(loads);
      FirstIsLowest(listeners, w.attached);
      return Some(sorted[0].listener);
    }

    method SelectFrom(w: World, listeners: seq<Listener>, provisioning: bool, budget: nat) returns (ok: bool)
      modifies this
      ensures Tasks.SelectFrom(old(Snapshot(w)), listeners, provisioning, budget) == Tasks.Outcome(Snapshot(w), ok)
    {
      if listener.Some? && provisioning { return true; }
      if budget == 0 { return false; }
      var lowest := GetLowestUsedAlb(w, listeners);
      if lowest.None? { return false; }
      previous := listener;
      listener := lowest;
      ok := true;
    }

    method AddCertificateToAlb(w: World, budget: nat) returns (ok: bool)
      modifies this, w
      ensures Tasks.AddCertificateToAlb(old(Snapshot(w)), budget) == Tasks.Outcome(Snapshot(w), ok)
    {
      if !Tasks.Usable(Snapshot(w), pending) || listener.None? || listener.value !in w.attached || budget == 0 {
        return false;
      }
      w.AddListenerCertificate(listener.value, certificates[pending.value].arn.value);
      internal := Some(TargetOf(listener.value));
      current := pending;
      pending := None;
      ok := true;
    }

    method RemoveCertificateFromPreviousAlb(w: World, budget: nat) returns (ok: bool)
      modifies this, w
      ensures Tasks.RemoveCertificateFromPreviousAlb(old(Snapshot(w)), budget) == Tasks.Outcome(Snapshot(w), ok)
    {
      var others := if current.None? then certificates.Keys else certificates.Keys - {current.value};
      if others == {} || previous.None? || previous.value !in w.attached || budget == 0 { return false; }
      var row := certificates[Ascending(others)[0]];
      if row.arn.None? { return false; }
      w.RemoveListenerCertificate(previous.value, row.arn.value);
      previous := None;
      ok := true;
    }

    method RemoveFromPreviousAlbDuringUpdateToDedicated(w: World, budget: nat) returns (ok: bool)
      modifies this, w
      ensures Tasks.RemoveFromPreviousAlbDuringUpdateToDedicated(old(Snapshot(w)), budget)
           == Tasks.Outcome(Snapshot(w), ok)
    {
      if previous.Some? {
        if current.None? || current.value !in certificates || certificates[current.value].arn.None?
           || previous.value !in w.attached || budget == 0 {
          return false;
        }
        w.RemoveListenerCertificate(previous.value, certificates[current.value].arn.value);
      }
      previous := None;
      ok := true;
    }

    method RemoveAlbCertificateDuringUpdateToCdn(w: World, budget: nat) returns (ok: bool)
      modifies this, w
      ensures Tasks.RemoveAlbCertificateDuringUpdateToCdn(old(Snapshot(w)), budget) == Tasks.Outcome(Snapshot(w), ok)
    {
      if listener.Some? {
        if albCertificate.None? || albCertificate.value !in certificates
           || certificates[albCertificate.value].arn.None? || listener.value !in w.attached || budget == 0 {
          return false;
        }
        w.RemoveListenerCertificate(listener.value, certificates[albCertificate.value].arn.value);
      }
      albCertificate := None;
      previous := None;
      ok := true;
    }

    method StoreAlbCertificate(w: World)
      modifies this
      ensures Tasks.StoreAlbCertificate(old(Snapshot(w))) == Tasks.Outcome(Snapshot(w), true)
    {
      albCertificate := current;
    }

    // ---- broker/tasks/cloudfront.py ----

    /** The ARN of the pending certificate, when it can be used. */
    method PendingArn(w: World) returns (arn: Option<Arn>)
      ensures arn.Some? <==> Tasks.Usable(Snapshot(w), pending)
      ensures arn.Some? ==> arn == certificates[pending.value].arn
    {
      if pending.None? || pending.value !in certificates { return None; }
      arn := certificates[pending.value].arn;
      if arn.Some? && arn.value !in w.iam { arn := None; }
    }

    /** Create the distribution, then remember it and promote the certificate. */
    method UseNewDistribution(w: World, arn: Arn)
      modifies this, w
      ensures var s := old(Snapshot(w));
              Snapshot(w) == Tasks.Promote(s.(served := s.served[s.nextId := arn], distribution := Some(s.nextId),
                                              internal := Some(Distribution(s.nextId)), nextId := s.nextId + 1))
    {
      var id := w.CreateDistribution(arn);
      distribution := Some(id);
      internal := Some(Distribution(id));
      current := pending;
      pending := None;
    }

    method CreateDistribution(w: World, budget: nat) returns (ok: bool)
      modifies this, w
      ensures Tasks.CreateDistribution(old(Snapshot(w)), budget) == Tasks.Outcome(Snapshot(w), ok)
    {
      if distribution.Some? && distribution.value in w.served { return true; }
      var arn := PendingArn(w);
      if arn.None? || budget == 0 { return false; }
      UseNewDistribution(w, arn.value);
      ok := true;
    }

    method UpdateDistribution(w: World, budget: nat) returns (ok: bool)
      modifies this, w
      ensures Tasks.UpdateDistribution(old(Snapshot(w)), budget) == Tasks.Outcome(Snapshot(w), ok)
    {
      if distribution.None? || distribution.value !in w.served || !Tasks.Usable(Snapshot(w), pending) || budget == 0 {
        return false;
      }
      w.served := w.served[distribution.value := certificates[pending.value].arn.value];
      current := pending;
      pending := None;
      ok := true;
    }

    // ---- deprovisioning ----

    method RemoveAliasRecords(w: World)
      modifies w`alias
      ensures Snapshot(w) == D.DeleteAliases(old(Snapshot(w)), domains)
    {
      var i := 0;
      while i < |domains|
        invariant 0 <= i <= |domains|
        invariant D.DeleteAliases(Snapshot(w), domains[i..]) == D.DeleteAliases(old(Snapshot(w)), domains)
      {
        assert domains[i..][1..] == domains[i + 1..];
        var d := domains[i];
        ghost var s := Snapshot(w);
        if d in w.alias && Some(w.alias[d].target) == internal { w.alias := w.alias - {d}; }
        assert Snapshot(w) == D.DeleteAlias(s, d);
        i := i + 1;
      }
    }

    method RemoveTxts(w: World, challenges: seq<Challenge>)
      modifies w`txt
      ensures Snapshot(w) == D.DeleteTxts(old(Snapshot(w)), challenges)
    {
      var i := 0;
      while i < |challenges|
        invariant 0 <= i <= |challenges|
        invariant D.DeleteTxts(Snapshot(w), challenges[i..]) == D.DeleteTxts(old(Snapshot(w)), challenges)
      {
        assert challenges[i..][1..] == challenges[i + 1..];
        var c := challenges[i];
        ghost var s := Snapshot(w);
        if c.domain in w.txt && w.txt[c.domain].contents == c.contents { w.txt := w.txt - {c.domain}; }
        assert Snapshot(w) == D.DeleteTxt(s, c);
        i := i + 1;
      }
    }

    /** Those of all certificate rows, whichever is current. */
    method RemoveTxtRecords(w: World)
      modifies w`txt
      ensures Snapshot(w) == D.DeleteTxtsOf(old(Snapshot(w)), Ascending(certificates.Keys))
    {
      hide D.DeleteTxts;
      var ids := Ascending(certificates.Keys);
      var i := 0;
      while i < |ids|
        invariant 0 <= i <= |ids|
        invariant D.DeleteTxtsOf(Snapshot(w), ids[i..]) == D.DeleteTxtsOf(old(Snapshot(w)), ids)
      {
        assert ids[i..][1..] == ids[i + 1..];
        assert ids[i] in ids;
        RemoveTxts(w, certificates[ids[i]].challenges);
        i := i + 1;
      }
    }

    /** The certificate is looked up whenever there is a listener. */
    method RemoveCertificateFromAlb(w: World, budget: nat) returns (ok: bool)
      modifies w`attached
      ensures D.TakeOff(D.Rest(old(Snapshot(w)), false), budget) == D.Result(D.Rest(Snapshot(w), false), ok)
    {
      if listener.Some? {
        if current.None? || current.value !in certificates || certificates[current.value].arn.None?
           || listener.value !in w.attached || budget == 0 {
          return false;
        }
        w.RemoveListenerCertificate(listener.value, certificates[current.value].arn.value);
      }
      ok := true;
    }

    method DeleteCertificateOf(w: World, partition: Partition, id: Option<nat>, budget: nat) returns (ok: bool)
      modifies w`iam
      ensures D.DeleteOne(old(Snapshot(w)), partition, id, budget) == Tasks.Outcome(Snapshot(w), ok)
    {
      hide Tasks.InUse;
      if id.None? || id.value !in certificates || certificates[id.value].arn.None? { return true; }
      if budget == 0 { return false; }
      ok := DeleteServerCertificate(w, Own(partition, id.value));
    }

    /** The pending certificate first, then the current one. */
    method DeleteCertificates(w: World, partition: Partition, budget: nat) returns (ok: bool)
      modifies w`iam
      ensures D.DeleteBoth(old(Snapshot(w)), partition, budget) == Tasks.Outcome(Snapshot(w), ok)
    {
      hide D.DeleteOne;
      ok := DeleteCertificateOf(w, partition, pending, budget);
      if ok { ok := DeleteCertificateOf(w, partition, current, if budget == 0 then 0 else budget - 1); }
    }
  }

  /** A listener and the number of its certificates. */
  datatype Used = Used(listener: Listener, load: nat)

  function Loads(listeners: seq<Listener>, attached: map<Listener, set<Arn>>): (r: seq<Used>)
    ensures |r| == |listeners|
  {
    if listeners == [] then []
    else [Used(listeners[0], Load(attached, listeners[0]))] + Loads(listeners[1..], attached)
  }

  lemma {:induction false} LoadsAppend(listeners: seq<Listener>, l: Listener, attached: map<Listener, set<Arn>>)
    ensures Loads(listeners + [l], attached) == Loads(listeners, attached) + [Used(l, Load(attached, l))]
  {
    if listeners == [] {
      assert [l][1..] == [];
    } else {
      assert (listeners + [l])[1..] == listeners[1..] + [l];
      LoadsAppend(listeners[1..], l, attached);
    }
  }

  /** Before everything with as many certificates, so that the sort is stable. */
  function Insert(x: Used, sorted: seq<Used>): (r: seq<Used>)
    ensures |r| == |sorted| + 1
    ensures multiset(r) == multiset([x] + sorted)
  {
    if sorted == [] || x.load <= sorted[0].load then [x] + sorted
    else
      assert sorted == [sorted[0]] + sorted[1..];
      [sorted[0]] + Insert(x, sorted[1..])
  }

  function SortByLoad(xs: seq<Used>): (r: seq<Used>)
    ensures |r| == |xs|
    ensures multiset(r) == multiset(xs)
  {
    if xs == [] then []
    else
      assert xs == [xs[0]] + xs[1..];
      Insert(xs[0], SortByLoad(xs[1..]))
  }

  /** The first after sorting is the first of the least used. */
  lemma {:induction false} FirstIsLowest(listeners: seq<Listener>, attached: map<Listener, set<Arn>>)
    requires listeners != []
    ensures var l := Lowest(listeners, attached);
            SortByLoad(Loads(listeners, attached))[0] == Used(l, Load(attached, l))
  {
    if |listeners| > 1 {
      FirstIsLowest(listeners[1..], attached);
    }
  }

  /** Python's list.remove: without its first occurrence. */
  function RemoveFirst(list: seq<nat>, x: nat): (r: seq<nat>)
    requires x in list
    ensures multiset(r) == multiset(list) - multiset{x}
    ensures list[0] == x ==> r == list[1..]
  {
    if list[0] == x then
      assert list == [x] + list[1..];
      list[1..]
    else
      assert list == [list[0]] + list[1..];
      [list[0]] + RemoveFirst(list[1..], x)
  }
}
