/**
  What the broker's tasks read and write: one service instance row with its
  certificate and challenge rows, and the part of AWS and of the certificate
  authority that those rows talk about.

  Modelling choices.
  - Keys, CSRs, PEM bodies, clocks and sleeps are left out: a certificate row is
    a record of the phase markers the tasks test.
  - An IAM server certificate is named after its certificate row, and its ARN is
    a function of its name and its AWS partition, so an ARN of this instance is
    the pair of the two. Certificates of other tenants are `Foreign`.
  - A DNS change takes effect somewhere between the UPSERT and the moment its
    change id is in sync, so a record remembers the targets that a resolver may
    still be given until then.
  - AWS and the database return fresh ids, drawn from counters.
 */
module Records {
  import opened Wrappers

  datatype Partition = GovCloud | Commercial

  datatype Arn = Own(partition: Partition, certificate: nat) | Foreign(id: nat)

  /** The same domains, in whatever order. */
  predicate SameDomains(a: seq<string>, b: seq<string>) {
    multiset(a) == multiset(b)
  }

  /** An HTTPS listener together with the load balancer it belongs to. */
  datatype Listener = Listener(albArn: string, listenerArn: string)

  /** What an ALIAS record can point at. */
  datatype Target = LoadBalancer(albArn: string) | Distribution(id: nat)

  /** The validation contents the authority expects for a domain of an order. */
  datatype Token = Token(order: nat, domain: string)

  datatype Challenge = Challenge(domain: string, contents: Token, alreadyValid: bool, answered: bool)

  datatype Certificate = Certificate(
    names: seq<string>,
    order: Option<nat>,
    challenges: seq<Challenge>,
    leaf: bool,
    arn: Option<Arn>)

  /** An ALIAS record: its target, the change that set it, and the earlier
      targets that stay visible until that change is in sync. */
  datatype Alias = Alias(target: Target, change: nat, stale: set<Target>)

  datatype Txt = Txt(contents: Token, change: nat)

  /** A challenge sent to the authority; `live` is what the authority sees when
      it looks for the TXT record. */
  datatype Answer = Answer(certificate: nat, domain: string, live: bool)

  datatype State = State(
    // the service instance row
    domains: seq<string>,
    user: Option<nat>,
    current: Option<nat>,
    pending: Option<nat>,
    albCertificate: Option<nat>,
    listener: Option<Listener>,
    previous: Option<Listener>,
    distribution: Option<nat>,
    internal: Option<Target>,
    changeIds: seq<nat>,
    // its certificate rows, with their challenge rows
    certificates: map<nat, Certificate>,
    // AWS
    iam: set<Arn>,
    attached: map<Listener, set<Arn>>,
    served: map<nat, Arn>,
    alias: map<string, Alias>,
    txt: map<string, Txt>,
    insync: set<nat>,
    // the certificate authority
    authorized: set<string>,
    answers: seq<Answer>,
    // configuration: the shared listeners, and the dedicated ones open to this org
    shared: seq<Listener>,
    dedicated: seq<Listener>,
    // the next fresh row or resource id, and the next fresh DNS change id
    nextId: nat,
    nextChange: nat)

  function TargetOf(listener: Listener): Target {
    LoadBalancer(listener.albArn)
  }

  /** The targets a resolver may be given for an ALIAS record. */
  function Visible(a: Alias, insync: set<nat>): (targets: set<Target>)
    ensures a.target in targets
  {
    if a.change in insync then {a.target} else {a.target} + a.stale
  }

  /** The authority sees a challenge's record once it is written and in sync. */
  predicate Live(s: State, c: Challenge) {
    && c.domain in s.txt
    && s.txt[c.domain].contents == c.contents
    && s.txt[c.domain].change in s.insync
  }

  /** The certificate rows other than the current one: what the "previous
      certificate" queries select. With no current certificate they select all. */
  function Others(s: State): (ids: set<nat>)
    ensures ids <= s.certificates.Keys
  {
    match s.current
    case None => s.certificates.Keys
    case Some(c) => s.certificates.Keys - {c}
  }

  function Load(attached: map<Listener, set<Arn>>, listener: Listener): nat {
    if listener in attached then |attached[listener]| else 0
  }

  /** The first of the least loaded listeners. */
  function Lowest(listeners: seq<Listener>, attached: map<Listener, set<Arn>>): (l: Listener)
    requires listeners != []
    ensures l in listeners
    ensures forall other :: other in listeners ==> Load(attached, l) <= Load(attached, other)
  {
    if |listeners| == 1 then listeners[0]
    else
      var rest := Lowest(listeners[1..], attached);
      if Load(attached, listeners[0]) <= Load(attached, rest) then listeners[0] else rest
  }

  /** No listener before it in the list is as little loaded. */
  lemma {:induction false} LowestIsFirst(listeners: seq<Listener>, attached: map<Listener, set<Arn>>) returns (i: nat)
    requires listeners != []
    ensures i < |listeners| && listeners[i] == Lowest(listeners, attached)
    ensures forall j :: 0 <= j < i ==> Load(attached, listeners[i]) < Load(attached, listeners[j])
    decreases |listeners|
  {
    i := 0;
    if Lowest(listeners, attached) != listeners[0] {
      i := LowestIsFirst(listeners[1..], attached);
      assert Lowest(listeners, attached) == Lowest(listeners[1..], attached);
      assert forall j :: 0 < j <= i ==> listeners[j] == listeners[1..][j - 1];
      i := i + 1;
    }
  }

  predicate IsLeast(m: nat, ids: set<nat>) {
    m in ids && forall x :: x in ids ==> m <= x
  }

  lemma HasLeast(ids: set<nat>)
    requires ids != {}
    ensures exists m :: IsLeast(m, ids)
  {
    var x :| x in ids;
    if ids == {x} {
      assert IsLeast(x, ids);
    } else {
      HasLeast(ids - {x});
      var m :| IsLeast(m, ids - {x});
      assert forall y :: y in ids ==> y == x || y in ids - {x};
      assert IsLeast(if m < x then m else x, ids);
    }
  }

  function Least(ids: set<nat>): (m: nat)
    requires ids != {}
    ensures IsLeast(m, ids)
  {
    HasLeast(ids);
    var m :| IsLeast(m, ids);
    m
  }

  /** The ids in insertion order. */
  function Ascending(ids: set<nat>): (r: seq<nat>)
    ensures forall x :: x in r <==> x in ids
    ensures |r| == |ids|
  {
    if ids == {} then [] else
      var m := Least(ids);
      [m] + Ascending(ids - {m})
  }
}
