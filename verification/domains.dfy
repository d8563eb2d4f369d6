/**
  Domain names: how requests name them, and that no two active instances share one,
  whatever provisions, updates and deprovisions were asked for, when duplicates are
  not ignored by configuration.
 */
module Domains {
  import opened Wrappers
  import opened Strings
  import Cname

  /** The `domains` parameter. */
  datatype Parameter = Missing | Text(text: string) | List(items: seq<string>) | Unsupported

  datatype Instance = Instance(domains: seq<string>, deactivated: bool)

  type State = map<string, Instance>

  // ---- parsing ----

  function Normal(domain: string): string {
    Lower(Strip(domain))
  }

  function NormalAll(domains: seq<string>): (r: seq<string>)
    ensures |r| == |domains|
    ensures forall i :: 0 <= i < |domains| ==> r[i] == Normal(domains[i])
  {
    seq(|domains|, i requires 0 <= i < |domains| => Normal(domains[i]))
  }

  /** None stands for Python's None, which has no length. */
  function Parse(p: Parameter): Option<seq<string>> {
    match p
    case Missing => Some([])
    case Text(text) => Some(NormalAll(Split(text, ',')))
    case List(items) => Some(NormalAll(items))
    case Unsupported => None
  }

  /** What is stored is in normal form: to normalize it again changes nothing. */
  lemma NormalIsNormal(domain: string)
    ensures Normal(Normal(domain)) == Normal(domain)
  {
    var s := Strip(domain);
    assert Trimmed(s);
    assert Trimmed(Lower(s));
    assert Lower(Lower(s)) == Lower(s);
  }

  /** A list as text means the list: it is split at its commas. */
  lemma TextIsAList(items: seq<string>)
    requires items != [] && forall i :: 0 <= i < |items| ==> ',' !in items[i]
    ensures Parse(Text(Join(items, ','))) == Parse(List(items))
  {
    SplitJoin(items, ',');
  }

  /** Each item stands for the name in it, in lower case: whitespace around it does not
      count, and neither does case. */
  lemma ItemsAreNames(items: seq<string>, i: nat, left: string, name: string, right: string)
    requires i < |items| && items[i] == left + name + right && Blank(left) && Blank(right) && Trimmed(name)
    ensures Parse(List(items)).Some? && |Parse(List(items)).value| == |items|
    ensures var stored := Parse(List(items)).value[i];
            && |stored| == |name| && Upper(stored) == Upper(name)
            && forall c :: c in stored ==> c !in UPPER
  {
    StripFinds(left, name, right);
    LowerIs(name);
  }

  // ---- requests ----

  /** Another active instance has the domain. */
  predicate Taken(s: State, domain: string, ignored: Option<string>) {
    exists id :: id in s && Some(id) != ignored && !s[id].deactivated && domain in s[id].domains
  }

  /** The error for a domain that is taken is the domain itself, so for the empty
      domain it reads as no error. */
  predicate Unique(s: State, domains: seq<string>, ignored: Option<string>) {
    forall d :: d in domains && d != "" ==> !Taken(s, d, ignored)
  }

  /** The CNAME records there are when the request is made, and the root that the
      challenge names must lead to. */
  datatype Dns = Dns(zone: Cname.Zone, root: string)

  ghost predicate CnamesInPlace(dns: Dns, domains: seq<string>) {
    forall d :: d in domains ==> Cname.InPlace(dns.zone, d, dns.root)
  }

  ghost function Provision(s: State, id: string, p: Parameter, dns: Dns): State {
    match Parse(p)
    case None => s
    case Some(domains) =>
      if domains == [] || !CnamesInPlace(dns, domains) || !Unique(s, domains, None) || id in s then s
      else s[id := Instance(domains, false)]
  }

  /** How the request goes on after its domains were accepted: the move between
      distributions commits them before the parameters are looked at, an update of an
      instance on its way to a distribution before it fails, and the moves off a load
      balancer's plan discard them when they change the type of the instance. */
  datatype Fate = Completed | RolledBack | CommittedThenFailed | Discarded

  predicate Commits(fate: Fate) {
    fate.Completed? || fate.CommittedThenFailed?
  }

  /** The domains to apply: none when the request names the ones there are. */
  function ToApply(requested: seq<string>, current: seq<string>): seq<string> {
    if Sorted(requested) == Sorted(current) then [] else requested
  }

  ghost function Update(s: State, id: string, p: Parameter, dns: Dns, fate: Fate): State {
    match Parse(p)
    case None => s
    case Some(domains) =>
      if id !in s || s[id].deactivated then s
      else if domains == [] then s
      else if !CnamesInPlace(dns, domains) || !Unique(s, domains, Some(id)) then s
      else if ToApply(domains, s[id].domains) == [] || !Commits(fate) then s
      else s[id := s[id].(domains := domains)]
  }

  /** The last task of a deprovision. */
  function Deactivate(s: State, id: string): State {
    if id in s then s[id := s[id].(deactivated := true)] else s
  }

  datatype Event =
    | ProvisionRequest(id: string, domains: Parameter, dns: Dns)
    | UpdateRequest(id: string, domains: Parameter, dns: Dns, fate: Fate)
    | Deprovisioned(id: string)

  ghost function Next(s: State, e: Event): State {
    match e
    case ProvisionRequest(id, domains, dns) => Provision(s, id, domains, dns)
    case UpdateRequest(id, domains, dns, fate) => Update(s, id, domains, dns, fate)
    case Deprovisioned(id) => Deactivate(s, id)
  }

  ghost function After(s: State, events: seq<Event>): State
    decreases |events|
  {
    if events == [] then s else After(Next(s, events[0]), events[1..])
  }

  // ---- the empty domain ----

  predicate HasEmptyLabel(name: string) {
    exists i :: 0 <= i < |name| - 1 && name[i] == '.' && name[i + 1] == '.'
  }

  /** DNS answers print no name with an empty label (section 3.1 of RFC 1034 reserves
      that label for the root). */
  ghost predicate Printable(zone: Cname.Zone) {
    forall name :: name in zone ==> !HasEmptyLabel(zone[name])
  }

  predicate Asks(e: Event) {
    e.ProvisionRequest? || e.UpdateRequest?
  }

  /** The challenge name of the empty domain would have to lead to such a name. */
  lemma EmptyIsNotInPlace(zone: Cname.Zone, root: string)
    requires Printable(zone)
    ensures !Cname.InPlace(zone, "", root)
  {
    var name, target := Cname.ChallengeName(""), Cname.ChallengeTarget("", root);
    assert target[15] == '.' && target[16] == '.';
    forall n: nat ensures !Cname.ReachedAt(zone, name, target, n) {
      if n > 0 { assert Cname.Follow(zone, name, n) == Cname.GetCname(zone, Cname.Follow(zone, name, n - 1)); }
    }
  }

  /** So a request that names the empty domain, alone or among others, is refused. */
  lemma EmptyDomainIsRefused(s: State, e: Event)
    requires Asks(e) && Printable(e.dns.zone) && Parse(e.domains).Some? && "" in Parse(e.domains).value
    ensures Next(s, e) == s
  {
    EmptyIsNotInPlace(e.dns.zone, e.dns.root);
    assert !CnamesInPlace(e.dns, Parse(e.domains).value);
  }

  // ---- the invariant ----

  predicate Apart(a: Instance, b: Instance) {
    a.deactivated || b.deactivated || forall d :: d in a.domains ==> d !in b.domains
  }

  ghost predicate NoneEmpty(s: State) {
    forall id :: id in s ==> "" !in s[id].domains
  }

  ghost predicate AllApart(s: State) {
    forall x, y :: x in s && y in s && x != y ==> Apart(s[x], s[y])
  }

  ghost predicate AllNormal(s: State) {
    forall id, i :: id in s && 0 <= i < |s[id].domains| ==> Normal(s[id].domains[i]) == s[id].domains[i]
  }

  lemma ParsedIsNormal(p: Parameter)
    ensures Parse(p).Some? ==> forall i :: 0 <= i < |Parse(p).value| ==> Normal(Parse(p).value[i]) == Parse(p).value[i]
  {
    if Parse(p).Some? {
      forall i | 0 <= i < |Parse(p).value| ensures Normal(Parse(p).value[i]) == Parse(p).value[i] {
        match p {
          case Text(text) => NormalIsNormal(Split(text, ',')[i]);
          case List(items) => NormalIsNormal(items[i]);
          case _ =>
        }
      }
    }
  }

  /** An instance whose domains no other active one has stays apart from all. */
  lemma PutIsApart(s: State, id: string, domains: seq<string>)
    requires AllApart(s) && "" !in domains && Unique(s, domains, if id in s then Some(id) else None)
    ensures AllApart(s[id := Instance(domains, false)])
  {
    var s' := s[id := Instance(domains, false)];
    forall x | x in s && x != id ensures Apart(s[x], s'[id]) && Apart(s'[id], s[x]) {
      if !s[x].deactivated {
        forall d | d in domains ensures d !in s[x].domains {
          assert !Taken(s, d, if id in s then Some(id) else None);
        }
      }
    }
    forall x, y | x in s' && y in s' && x != y ensures Apart(s'[x], s'[y]) {
      if x != id && y != id { assert Apart(s[x], s[y]); }
    }
  }

  ghost predicate Sound(s: State) {
    AllApart(s) && AllNormal(s) && NoneEmpty(s)
  }

  lemma NextIsSound(s: State, e: Event)
    requires Sound(s) && (Asks(e) ==> Printable(e.dns.zone))
    ensures Sound(Next(s, e))
  {
    if Asks(e) {
      ParsedIsNormal(e.domains);
      if Next(s, e) != s {
        var domains := Parse(e.domains).value;
        if "" in domains { EmptyDomainIsRefused(s, e); }
        PutIsApart(s, e.id, domains);
      }
    } else if e.id in s {
      var s' := Next(s, e);
      forall x, y | x in s' && y in s' && x != y ensures Apart(s'[x], s'[y]) {
        assert Apart(s[x], s[y]);
      }
    }
  }

  ghost predicate AllPrintable(events: seq<Event>) {
    forall e :: e in events && Asks(e) ==> Printable(e.dns.zone)
  }

  lemma {:induction false} AfterIsSound(s: State, events: seq<Event>)
    requires Sound(s) && AllPrintable(events)
    ensures Sound(After(s, events))
    decreases |events|
  {
    hide Sound, Next, Printable;
    if events != [] {
      assert events[0] in events;
      NextIsSound(s, events[0]);
      AfterIsSound(Next(s, events[0]), events[1..]);
    }
  }

  // ---- main results ----

  /** The domains of any two active instances are disjoint, case and surrounding
      whitespace aside, and none is empty. */
  lemma DomainsAreUnique(events: seq<Event>, x: string, y: string, i: nat, j: nat)
    requires AllPrintable(events)
    requires var s := After(map[], events);
             && x in s && y in s && x != y && !s[x].deactivated && !s[y].deactivated
             && i < |s[x].domains| && j < |s[y].domains|
    ensures var s := After(map[], events);
            Normal(s[x].domains[i]) != Normal(s[y].domains[j]) && s[x].domains[i] != ""
  {
    AfterIsSound(map[], events);
    var s := After(map[], events);
    assert Apart(s[x], s[y]);
    assert s[x].domains[i] in s[x].domains;
    assert s[y].domains[j] in s[y].domains;
  }

  /** A request for the domains an instance has, in any order, case and spelling of a
      list, is accepted as no change; and a change is applied exactly otherwise. */
  lemma SameDomainsAreNoChange(requested: seq<string>, current: seq<string>)
    requires requested != []
    ensures ToApply(requested, current) == [] <==> multiset(requested) == multiset(current)
    ensures multiset(requested) != multiset(current) ==> ToApply(requested, current) == requested
  {
    SortedAlike(requested, current);
  }

  /** An instance never stands in the way of its own domains. */
  lemma OwnDomainsArePermitted(s: State, id: string)
    requires AllApart(s) && id in s && !s[id].deactivated
    ensures Unique(s, s[id].domains, Some(id))
  {
    forall d | d in s[id].domains && d != "" ensures !Taken(s, d, Some(id)) {
      forall x | x in s && Some(x) != Some(id) && !s[x].deactivated ensures d !in s[x].domains {
        assert Apart(s[id], s[x]);
      }
    }
  }

  /** The domains of a request are those it names, as they are stored; it is accepted when
      it names any, all their CNAME records are in place, and no other active instance has
      one of them. */
  ghost predicate Accepted(s: State, p: Parameter, dns: Dns, ignored: Option<string>) {
    && Parse(p).Some? && Parse(p).value != []
    && (forall d :: d in Parse(p).value ==> Cname.InPlace(dns.zone, d, dns.root) && (d != "" ==> !Taken(s, d, ignored)))
  }

  lemma AcceptedIs(s: State, p: Parameter, dns: Dns, ignored: Option<string>)
    ensures Accepted(s, p, dns, ignored)
       <==> && Parse(p).Some? && Parse(p).value != []
            && CnamesInPlace(dns, Parse(p).value) && Unique(s, Parse(p).value, ignored)
  {
    hide Parse, Taken, Cname.InPlace;
  }

  /** A provisioning is stored exactly when it is accepted and its id is new. */
  lemma ProvisionStores(s: State, id: string, p: Parameter, dns: Dns)
    ensures Provision(s, id, p, dns)
         == if Accepted(s, p, dns, None) && id !in s then s[id := Instance(Parse(p).value, false)] else s
  {
    AcceptedIs(s, p, dns, None);
    hide Parse, Accepted, CnamesInPlace, Unique;
  }

  /** An update changes the domains exactly when it is accepted, the instance is active,
      they are not, as often, the ones it has, and the request goes on to commit them. */
  lemma UpdateStores(s: State, id: string, p: Parameter, dns: Dns, fate: Fate)
    ensures Update(s, id, p, dns, fate)
         == if && Accepted(s, p, dns, Some(id)) && id in s && !s[id].deactivated && Commits(fate)
               && multiset(Parse(p).value) != multiset(s[id].domains)
            then s[id := Instance(Parse(p).value, false)] else s
  {
    AcceptedIs(s, p, dns, Some(id));
    hide Parse, Accepted, CnamesInPlace, Unique, ToApply;
    if Parse(p).Some? && Parse(p).value != [] && id in s { SameDomainsAreNoChange(Parse(p).value, s[id].domains); }
  }

  /** Once its instance is deactivated, a domain can be given to another one. */
  lemma DeactivationFreesDomains(s: State, id: string)
    requires AllApart(s) && id in s
    ensures !s[id].deactivated ==> Unique(Deactivate(s, id), s[id].domains, None)
    ensures forall d, ignored :: Taken(Deactivate(s, id), d, ignored) ==> Taken(s, d, ignored)
  {
    var s' := Deactivate(s, id);
    forall d | d in s[id].domains && !s[id].deactivated ensures !Taken(s', d, None) {
      forall x | x in s' && !s'[x].deactivated ensures d !in s'[x].domains {
        assert x != id && Apart(s[id], s[x]);
      }
    }
    forall d, ignored | Taken(s', d, ignored) ensures Taken(s, d, ignored) {
      var x :| x in s' && Some(x) != ignored && !s'[x].deactivated && d in s'[x].domains;
      assert x != id && x in s && s[x] == s'[x];
    }
  }

  lemma OneRecordIsInPlace(d: string, root: string)
    ensures Cname.InPlace(map[Cname.ChallengeName(d) := Cname.ChallengeTarget(d, root)], d, root)
  {
    var name, target := Cname.ChallengeName(d), Cname.ChallengeTarget(d, root);
    var zone: Cname.Zone := map[name := target];
    assert Cname.Follow(zone, name, 0) == name && Cname.Follow(zone, name, 1) == target;
    assert Cname.ReachedAt(zone, name, target, 1);
  }

  /** A request may list a domain twice, and the row then does. */
  lemma ARepeatedDomainIsAccepted(id: string, d: string, root: string)
    requires Normal(d) == d
    ensures var dns := Dns(map[Cname.ChallengeName(d) := Cname.ChallengeTarget(d, root)], root);
            Next(map[], ProvisionRequest(id, List([d, d]), dns)) == map[id := Instance([d, d], false)]
  {
    OneRecordIsInPlace(d, root);
    assert NormalAll([d, d]) == [d, d];
  }

  // ---- the check as it runs ----

  /** The domain when another active instance has it, else nothing. */
  function ErrorFor(s: State, domain: string, ignored: Option<string>): string {
    if Taken(s, domain, ignored) then domain else ""
  }

  /** The errors of the domains asked for; none means they are accepted. */
  method UniqueDomainErrors(s: State, domains: seq<string>, ignored: Option<string>) returns (errors: seq<string>)
    ensures forall d :: d in errors <==> d in domains && d != "" && Taken(s, d, ignored)
    ensures errors == [] <==> Unique(s, domains, ignored)
  {
    errors := [];
    var i := 0;
    while i < |domains|
      invariant 0 <= i <= |domains|
      invariant forall d :: d in errors <==> d in domains[..i] && d != "" && Taken(s, d, ignored)
    {
      assert domains[..i + 1] == domains[..i] + [domains[i]];
      var error := ErrorFor(s, domains[i], ignored);
      if error != "" { errors := errors + [error]; }
      i := i + 1;
    }
    assert domains[..i] == domains;
    if errors != [] { assert errors[0] in errors; }
  }
}
