/**
  The parameters of a CDN instance: what a provisioning makes of them, what an update
  changes, and what stays, over one provisioning and any number of updates.

  A key that is absent and a key that is null are different things (Open Service
  Broker API, "Updating a Service Instance").
 */
module CdnParams {
  import opened Wrappers
  import opened Strings
  import Hostname

  datatype Param<T> = Absent | Null | Given(value: T)

  datatype Params = Params(
    origin: Param<string>,
    path: Param<string>,
    cookies: Param<string>,
    headers: Param<string>,
    insecure: Param<bool>,
    errors: Param<map<string, string>>,
    email: Param<string>,
    cachePolicy: Param<string>,
    originRequestPolicy: Param<string>)

  datatype Cookies = All | NoCookies | Whitelist(names: seq<string>)

  datatype Protocol = HttpsOnly | HttpOnly

  /** The instance's columns; `waf` says that its plan has a firewall of its own. */
  datatype Config = Config(
    waf: bool,
    origin: string,
    path: Option<string>,
    cookies: Cookies,
    headers: seq<string>,
    errors: map<string, string>,
    protocol: Protocol,
    email: Option<string>,
    cachePolicy: Option<string>,
    originRequestPolicy: Option<string>)

  /** The broker's own configuration: the default origin, and the managed policies a
      request may name, with their ids. */
  datatype Broker = Broker(
    defaultOrigin: string,
    cachePolicies: map<string, string>,
    originPolicies: map<string, string>)

  // ---- parsing ----

  function WithoutSpaces(s: string): (r: string)
    ensures ' ' !in r
  {
    if s == "" then ""
    else if s[0] == ' ' then WithoutSpaces(s[1..])
    else [s[0]] + WithoutSpaces(s[1..])
  }

  function ParseCookies(p: Param<string>): Cookies {
    if !p.Given? then All
    else
      var text := WithoutSpaces(p.value);
      if text == "" then NoCookies else if text == "*" then All else Whitelist(Split(text, ','))
  }

  /** Blanks are dropped and everything else stays, in its order. */
  lemma {:induction false} SpacesAreDropped(a: string, b: string)
    ensures WithoutSpaces(a + b) == WithoutSpaces(a) + WithoutSpaces(b)
    ensures ' ' !in a ==> WithoutSpaces(a) == a
    decreases |a|
  {
    if a == "" {
      assert a + b == b;
    } else {
      assert (a + b)[1..] == a[1..] + b;
      SpacesAreDropped(a[1..], b);
      assert a == [a[0]] + a[1..];
    }
  }

  /** No value at all forwards every cookie, and so does the asterisk; a blank one forwards
      none; any other text is a list of names between commas. */
  lemma CookiesAre(p: Param<string>)
    ensures match ParseCookies(p)
            case All => !p.Given? || WithoutSpaces(p.value) == "*"
            case NoCookies => p.Given? && forall c :: c in p.value ==> c == ' '
            case Whitelist(names) =>
              && p.Given? && names != [] && Join(names, ',') == WithoutSpaces(p.value)
              && (forall i :: 0 <= i < |names| ==> ',' !in names[i])
              && exists c :: c in p.value && c != ' '
  {
    if p.Given? {
      DroppedAll(p.value);
      JoinSplit(WithoutSpaces(p.value), ',');
      SplitPieces(WithoutSpaces(p.value), ',');
    }
  }

  lemma {:induction false} DroppedAll(s: string)
    ensures WithoutSpaces(s) == "" <==> forall c :: c in s ==> c == ' '
    decreases |s|
  {
    if s != "" {
      DroppedAll(s[1..]);
      assert s[0] in s && forall c :: c in s <==> c == s[0] || c in s[1..];
    }
  }

  /** A list of headers between commas is taken apart the same way, or refused. */
  lemma HeadersAre(p: Param<string>)
    ensures match ParseHeaders(p)
            case Some(headers) =>
              && ValidHeaders(headers)
              && if p.Given? then headers != [] && Join(headers, ',') == WithoutSpaces(p.value) else headers == []
            case None => p.Given? && !ValidHeaders(Split(WithoutSpaces(p.value), ','))
  {
    if p.Given? { JoinSplit(WithoutSpaces(p.value), ','); }
  }

  /** The characters of a header name (section 3.2.6 of RFC 7230). */
  predicate HeaderChar(c: char) {
    || 'a' <= c <= 'z' || 'A' <= c <= 'Z' || '0' <= c <= '9'
    || c in "!#$%&'*+-.^_`|"
  }

  lemma HeaderCharsAre(c: char)
    ensures HeaderChar(c) <==> c in LOWER || c in UPPER || c in DIGITS || c in "!#$%&'*+-.^_`|"
  {
    LettersAre(c);
  }

  predicate ValidHeaders(headers: seq<string>) {
    forall i :: 0 <= i < |headers| ==> headers[i] != "" && forall c :: c in headers[i] ==> HeaderChar(c)
  }

  /** None where the list is refused. */
  function ParseHeaders(p: Param<string>): Option<seq<string>> {
    var headers := if p.Given? then Split(WithoutSpaces(p.value), ',') else [];
    if ValidHeaders(headers) then Some(headers) else None
  }

  function Uppers(headers: seq<string>): (r: seq<string>)
    ensures |r| == |headers|
    ensures forall i :: 0 <= i < |r| ==> r[i] == Upper(headers[i])
  {
    seq(|headers|, i requires 0 <= i < |headers| => Upper(headers[i]))
  }

  /** Without repetitions. */
  function Distinct(xs: seq<string>): seq<string> {
    if xs == [] then []
    else if xs[0] in xs[1..] then Distinct(xs[1..])
    else [xs[0]] + Distinct(xs[1..])
  }

  /** The set of the upper-case names, in order. */
  function NormalizeHeaders(headers: seq<string>): seq<string> {
    Sorted(Distinct(Uppers(headers)))
  }

  const ERROR_CODES: seq<string> :=
    ["400", "403", "404", "405", "414", "416", "500", "501", "502", "503", "504"]

  predicate ValidErrors(errors: map<string, string>) {
    forall code :: code in errors ==> code in ERROR_CODES && errors[code] != "" && errors[code][0] == '/'
  }

  predicate Truthy(p: Param<string>) {
    p.Given? && p.value != ""
  }

  /** The id of the policy that a request names: Some(None) when it names none, None when
      it may not. */
  function ParsePolicy(p: Param<string>, managed: map<string, string>): Option<Option<string>> {
    if !Truthy(p) then Some(None)
    else if p.value !in managed then None
    else if managed[p.value] == "" then Some(None)
    else Some(Some(managed[p.value]))
  }

  function Or<T>(a: Option<T>, b: Option<T>): Option<T> {
    if a.Some? then a else b
  }

  function WithHost(b: Broker, origin: string, headers: seq<string>): seq<string> {
    NormalizeHeaders(if origin == b.defaultOrigin then headers + ["HOST"] else headers)
  }

  // ---- provisioning ----

  function ProvisionedOrigin(b: Broker, p: Params): string {
    if p.origin.Absent? then b.defaultOrigin else if p.origin.Null? then "" else p.origin.value
  }

  predicate Provisionable(b: Broker, p: Params, waf: bool) {
    && Hostname.Validates(ProvisionedOrigin(b, p))
    && ParseHeaders(p.headers).Some?
    && !p.errors.Null? && (p.errors.Given? ==> ValidErrors(p.errors.value))
    && !(p.insecure == Given(true) && !p.origin.Given?)
    && !(waf && !Truthy(p.email))
    && ParsePolicy(p.cachePolicy, b.cachePolicies).Some?
    && ParsePolicy(p.originRequestPolicy, b.originPolicies).Some?
  }

  function Provisioned(b: Broker, p: Params, waf: bool): Config
    requires Provisionable(b, p, waf)
  {
    var origin := ProvisionedOrigin(b, p);
    Config(
      waf, origin,
      if p.path.Absent? then Some("") else if p.path.Null? then None else Some(p.path.value),
      ParseCookies(p.cookies),
      WithHost(b, origin, ParseHeaders(p.headers).value),
      if p.errors.Given? then p.errors.value else map[],
      if p.insecure == Given(true) then HttpOnly else HttpsOnly,
      if waf then Some(p.email.value) else None,
      ParsePolicy(p.cachePolicy, b.cachePolicies).value,
      ParsePolicy(p.originRequestPolicy, b.originPolicies).value)
  }

  /** None where the request is refused. */
  function Provision(b: Broker, p: Params, waf: bool): Option<Config> {
    if Provisionable(b, p, waf) then Some(Provisioned(b, p, waf)) else None
  }

  // ---- updating ----

  function UpdatedOrigin(b: Broker, p: Params, c: Config): string {
    if p.origin.Absent? then c.origin else if Truthy(p.origin) then p.origin.value else b.defaultOrigin
  }

  function UpdatedHeaders(p: Params, c: Config): Option<seq<string>> {
    if p.headers.Absent? then Some(c.headers) else ParseHeaders(p.headers)
  }

  function UpdatedEmail(p: Params, c: Config): Option<string> {
    if c.waf && Truthy(p.email) then Some(p.email.value) else c.email
  }

  predicate Updatable(b: Broker, p: Params, c: Config) {
    && !(Truthy(p.origin) && !Hostname.Validates(UpdatedOrigin(b, p, c)))
    && UpdatedHeaders(p, c).Some?
    && !(p.insecure == Given(true) && UpdatedOrigin(b, p, c) == b.defaultOrigin)
    && !p.errors.Null? && (p.errors.Given? ==> ValidErrors(p.errors.value))
    && !(c.waf && (UpdatedEmail(p, c).None? || UpdatedEmail(p, c) == Some("")))
    && ParsePolicy(p.cachePolicy, b.cachePolicies).Some?
    && ParsePolicy(p.originRequestPolicy, b.originPolicies).Some?
  }

  function Updated(b: Broker, p: Params, c: Config): Config
    requires Updatable(b, p, c)
  {
    var origin := UpdatedOrigin(b, p, c);
    c.(origin := origin,
       path := if p.path.Absent? then c.path else if p.path.Null? then Some("") else Some(p.path.value),
       cookies := if p.cookies.Absent? then c.cookies else ParseCookies(p.cookies),
       headers := WithHost(b, origin, UpdatedHeaders(p, c).value),
       errors := if p.errors.Given? then p.errors.value else c.errors,
       protocol := if p.insecure.Absent? then c.protocol
                   else if p.insecure == Given(true) then HttpOnly else HttpsOnly,
       email := UpdatedEmail(p, c),
       cachePolicy := Or(ParsePolicy(p.cachePolicy, b.cachePolicies).value, c.cachePolicy),
       originRequestPolicy := Or(ParsePolicy(p.originRequestPolicy, b.originPolicies).value, c.originRequestPolicy))
  }

  function Update(b: Broker, p: Params, c: Config): Option<Config> {
    if Updatable(b, p, c) then Some(Updated(b, p, c)) else None
  }

  /** A refused update leaves the row as it is. `toWaf` moves the instance to the plan
      with the firewall in the same request. */
  function Apply(b: Broker, p: Params, toWaf: bool, c: Config): Config {
    var updated := Update(b, p, if toWaf then c.(waf := true) else c);
    if updated.Some? then updated.value else c
  }

  function ApplyAll(b: Broker, updates: seq<(Params, bool)>, c: Config): Config
    decreases |updates|
  {
    if updates == [] then c else ApplyAll(b, updates[1..], Apply(b, updates[0].0, updates[0].1, c))
  }

  // ---- headers ----

  predicate IsUpper(s: string) {
    Upper(s) == s
  }

  predicate StrictlyOrdered(xs: seq<string>) {
    forall i, j :: 0 <= i < j < |xs| ==> StringLeq(xs[i], xs[j]) && xs[i] != xs[j]
  }

  /** Upper-case, strictly sorted, and with HOST when the origin is the default. */
  predicate Normal(b: Broker, c: Config) {
    && (forall i :: 0 <= i < |c.headers| ==> IsUpper(c.headers[i]))
    && StrictlyOrdered(c.headers)
    && (c.origin == b.defaultOrigin ==> "HOST" in c.headers)
  }

  lemma UpperTwice(s: string)
    ensures Upper(Upper(s)) == Upper(s)
  {
  }

  lemma {:induction false} DistinctIs(xs: seq<string>)
    ensures forall x :: x in Distinct(xs) <==> x in xs
    ensures forall x :: multiset(Distinct(xs))[x] <= 1
    decreases |xs|
  {
    if xs != [] {
      DistinctIs(xs[1..]);
      assert xs == [xs[0]] + xs[1..];
      assert multiset([xs[0]] + Distinct(xs[1..])) == multiset{xs[0]} + multiset(Distinct(xs[1..]));
      if xs[0] !in xs[1..] { assert xs[0] !in multiset(Distinct(xs[1..])); }
    }
  }

  lemma Twice(xs: seq<string>, i: nat, j: nat)
    requires i < j < |xs| && xs[i] == xs[j]
    ensures multiset(xs)[xs[i]] >= 2
  {
    assert xs == xs[..j] + xs[j..];
    assert xs[i] in xs[..j] && xs[j] in xs[j..];
    assert multiset(xs)[xs[i]] == multiset(xs[..j])[xs[i]] + multiset(xs[j..])[xs[i]];
  }

  lemma DistinctOrder(xs: seq<string>)
    requires Ordered(xs) && forall x :: multiset(xs)[x] <= 1
    ensures StrictlyOrdered(xs)
  {
    forall i, j | 0 <= i < j < |xs| ensures xs[i] != xs[j] {
      if xs[i] == xs[j] { Twice(xs, i, j); }
    }
  }

  lemma {:induction false} OnceEach(xs: seq<string>)
    requires StrictlyOrdered(xs)
    ensures forall x :: multiset(xs)[x] <= 1
    decreases |xs|
  {
    if xs != [] {
      OnceEach(xs[1..]);
      assert xs == [xs[0]] + xs[1..];
      assert forall j :: 0 < j < |xs| ==> xs[j] != xs[0];
      assert xs[0] !in xs[1..];
    }
  }

  /** Normalizing gives exactly the upper-case forms, strictly in order. */
  lemma NormalizedIs(headers: seq<string>)
    ensures var r := NormalizeHeaders(headers);
            && StrictlyOrdered(r)
            && (forall x :: x in r <==> x in Uppers(headers))
            && (forall i :: 0 <= i < |r| ==> IsUpper(r[i]))
  {
    var uppers := Uppers(headers);
    var distinct := Distinct(uppers);
    DistinctIs(uppers);
    SortedIsOrdered(distinct);
    SortedMembers(distinct);
    DistinctOrder(Sorted(distinct));
    forall i | 0 <= i < |Sorted(distinct)| ensures IsUpper(Sorted(distinct)[i]) {
      assert Sorted(distinct)[i] in uppers;
      var j :| 0 <= j < |uppers| && uppers[j] == Sorted(distinct)[i];
      UpperTwice(headers[j]);
    }
  }

  /** Two strictly ordered lists with the same members are the same. */
  lemma SameMembersSame(a: seq<string>, b: seq<string>)
    requires StrictlyOrdered(a) && StrictlyOrdered(b) && forall x :: x in a <==> x in b
    ensures a == b
  {
    OnceEach(a);
    OnceEach(b);
    forall x ensures multiset(a)[x] == multiset(b)[x] {
      assert x in a <==> x in multiset(a);
      assert x in b <==> x in multiset(b);
    }
    assert multiset(a) == multiset(b);
    OrderedUnique(a, b);
  }

  /** What is normal stays as it is. */
  lemma NormalizedAgain(headers: seq<string>, extra: seq<string>)
    requires StrictlyOrdered(headers) && forall i :: 0 <= i < |headers| ==> IsUpper(headers[i])
    requires forall x :: x in extra ==> IsUpper(x) && x in headers
    ensures NormalizeHeaders(headers + extra) == headers
  {
    var all := headers + extra;
    NormalizedIs(all);
    forall x ensures x in Uppers(all) <==> x in headers {
      if x in Uppers(all) {
        var i :| 0 <= i < |all| && Uppers(all)[i] == x;
        if i >= |headers| { assert all[i] == extra[i - |headers|]; }
        assert all[i] in headers;
      }
      if x in headers {
        var i :| 0 <= i < |headers| && headers[i] == x;
        assert Uppers(all)[i] == x;
      }
    }
    SameMembersSame(NormalizeHeaders(all), headers);
  }

  lemma HostIsUpper()
    ensures IsUpper("HOST")
  {
    assert Upper("HOST") == "HOST";
  }

  lemma WithHostIsNormal(b: Broker, origin: string, headers: seq<string>, c: Config)
    requires c.origin == origin && c.headers == WithHost(b, origin, headers)
    ensures Normal(b, c)
  {
    var all := if origin == b.defaultOrigin then headers + ["HOST"] else headers;
    NormalizedIs(all);
    HostIsUpper();
    if origin == b.defaultOrigin { assert Uppers(all)[|headers|] == "HOST"; }
  }

  // ---- main results ----

  /** Over one provisioning and any updates, the stored headers are normal. */
  lemma {:induction false} UpdatesKeepNormal(b: Broker, updates: seq<(Params, bool)>, c: Config)
    requires Normal(b, c)
    ensures Normal(b, ApplyAll(b, updates, c))
    decreases |updates|
  {
    hide Normal, Update;
    if updates != [] {
      var (p, toWaf) := updates[0];
      ApplyIsNormal(b, p, toWaf, c);
      UpdatesKeepNormal(b, updates[1..], Apply(b, p, toWaf, c));
    }
  }

  lemma ApplyIsNormal(b: Broker, p: Params, toWaf: bool, c: Config)
    requires Normal(b, c)
    ensures Normal(b, Apply(b, p, toWaf, c))
  {
    var updated := Update(b, p, if toWaf then c.(waf := true) else c);
    if updated.Some? {
      WithHostIsNormal(b, UpdatedOrigin(b, p, c), UpdatedHeaders(p, c).value, updated.value);
    }
  }

  lemma HeadersStayNormal(b: Broker, p: Params, waf: bool, updates: seq<(Params, bool)>)
    requires Provision(b, p, waf).Some?
    ensures Normal(b, ApplyAll(b, updates, Provision(b, p, waf).value))
  {
    var c := Provision(b, p, waf).value;
    WithHostIsNormal(b, c.origin, ParseHeaders(p.headers).value, c);
    UpdatesKeepNormal(b, updates, c);
  }

  /** A key that the request leaves out leaves its column as it was; for headers, with
      HOST added when the origin becomes the default. */
  lemma AbsentKeysChangeNothing(b: Broker, p: Params, c: Config)
    requires Normal(b, c) && Update(b, p, c).Some?
    ensures var c' := Update(b, p, c).value;
            && (p.origin.Absent? ==> c'.origin == c.origin)
            && (p.path.Absent? ==> c'.path == c.path)
            && (p.cookies.Absent? ==> c'.cookies == c.cookies)
            && (p.insecure.Absent? ==> c'.protocol == c.protocol)
            && (p.errors.Absent? ==> c'.errors == c.errors)
            && (p.email.Absent? ==> c'.email == c.email)
            && (p.cachePolicy.Absent? ==> c'.cachePolicy == c.cachePolicy)
            && (p.originRequestPolicy.Absent? ==> c'.originRequestPolicy == c.originRequestPolicy)
            && (p.headers.Absent? ==>
                  if c'.origin == b.defaultOrigin && "HOST" !in c.headers
                  then forall h :: h in c'.headers <==> h in c.headers || h == "HOST"
                  else c'.headers == c.headers)
  {
    if p.headers.Absent? {
      var c' := Update(b, p, c).value;
      HostIsUpper();
      if c'.origin == b.defaultOrigin {
        if "HOST" in c.headers {
          NormalizedAgain(c.headers, ["HOST"]);
        } else {
          AddsHost(c.headers);
        }
      } else {
        NormalizedAgain(c.headers, []);
        assert c.headers + [] == c.headers;
      }
    }
  }

  lemma AddsHost(headers: seq<string>)
    requires forall i :: 0 <= i < |headers| ==> IsUpper(headers[i])
    ensures forall h :: h in NormalizeHeaders(headers + ["HOST"]) <==> h in headers || h == "HOST"
  {
    var all := headers + ["HOST"];
    NormalizedIs(all);
    HostIsUpper();
    forall h ensures h in Uppers(all) <==> h in headers || h == "HOST" {
      if h in Uppers(all) {
        var i :| 0 <= i < |all| && Uppers(all)[i] == h;
        assert i < |headers| ==> all[i] == headers[i];
      }
      if h in headers {
        var i :| 0 <= i < |headers| && headers[i] == h;
        assert Uppers(all)[i] == h;
      }
      if h == "HOST" { assert Uppers(all)[|headers|] == "HOST"; }
    }
  }

  /** The headers stored are those forwarded, in upper case, with HOST for the default
      origin. */
  lemma WithHostIs(b: Broker, origin: string, headers: seq<string>)
    ensures forall h :: h in WithHost(b, origin, headers)
                        <==> h in Uppers(headers) || (origin == b.defaultOrigin && h == "HOST")
  {
    var all := if origin == b.defaultOrigin then headers + ["HOST"] else headers;
    NormalizedIs(all);
    HostIsUpper();
    assert Uppers(headers + ["HOST"]) == Uppers(headers) + ["HOST"];
  }

  /** Where a policy id comes from: the table of the managed ones, under the name given. */
  predicate Names(p: Param<string>, managed: map<string, string>, id: Option<string>) {
    && p.Given? && p.value != "" && p.value in managed
    && id.Some? && id.value != "" && managed[p.value] == id.value
  }

  predicate Protects(p: Params, protocol: Protocol) {
    protocol.HttpOnly? <==> p.insecure == Given(true)
  }

  /** What the keys of a request with headers say of the row, whatever it was before. */
  ghost predicate Carries(b: Broker, p: Params, c: Config) {
    && (p.origin.Given? && p.origin.value != "" ==> c.origin == p.origin.value)
    && (p.path.Given? ==> c.path == Some(p.path.value))
    && (p.errors.Given? ==> c.errors == p.errors.value)
    && (c.waf && p.email.Given? && p.email.value != "" ==> c.email == Some(p.email.value))
    && (forall id :: Names(p.cachePolicy, b.cachePolicies, Some(id)) ==> c.cachePolicy == Some(id))
    && (forall id :: Names(p.originRequestPolicy, b.originPolicies, Some(id)) ==> c.originRequestPolicy == Some(id))
    && (!p.headers.Absent? ==>
          && ParseHeaders(p.headers).Some?
          && forall h :: h in c.headers <==> h in Uppers(ParseHeaders(p.headers).value)
                                             || (c.origin == b.defaultOrigin && h == "HOST"))
  }

  /** A provisioning stores what the keys say, and defaults for the others. */
  lemma ProvisionCarries(b: Broker, p: Params, waf: bool)
    requires Provision(b, p, waf).Some?
    ensures var c := Provision(b, p, waf).value;
            && Carries(b, p, c) && Protects(p, c.protocol) && c.waf == waf && c.cookies == ParseCookies(p.cookies)
            && (p.origin.Absent? ==> c.origin == b.defaultOrigin)
            && (p.path.Absent? ==> c.path == Some("")) && (p.path.Null? ==> c.path.None?)
            && (p.errors.Absent? ==> c.errors == map[])
            && (c.cachePolicy.Some? ==> Names(p.cachePolicy, b.cachePolicies, c.cachePolicy))
            && (c.originRequestPolicy.Some? ==> Names(p.originRequestPolicy, b.originPolicies, c.originRequestPolicy))
            && (!waf ==> c.email.None?)
  {
    hide WithHost, Uppers, Hostname.Validates, ValidErrors;
    WithHostIs(b, ProvisionedOrigin(b, p), ParseHeaders(p.headers).value);
  }

  /** An update stores what the keys say; a key that is null or empty clears its column,
      but a policy and an email cannot be cleared. */
  lemma UpdateCarries(b: Broker, p: Params, c: Config)
    requires Update(b, p, c).Some?
    ensures var c' := Update(b, p, c).value;
            && Carries(b, p, c') && c'.waf == c.waf
            && (!p.insecure.Absent? ==> Protects(p, c'.protocol))
            && (!p.cookies.Absent? ==> c'.cookies == ParseCookies(p.cookies))
            && (p.origin.Null? || p.origin == Given("") ==> c'.origin == b.defaultOrigin)
            && (p.path.Null? ==> c'.path == Some(""))
            && (c'.cachePolicy != c.cachePolicy ==> Names(p.cachePolicy, b.cachePolicies, c'.cachePolicy))
            && (c'.originRequestPolicy != c.originRequestPolicy ==>
                  Names(p.originRequestPolicy, b.originPolicies, c'.originRequestPolicy))
            && (c'.email != c.email ==> c.waf && p.email.Given? && c'.email == Some(p.email.value))
  {
    hide WithHost, Uppers, Hostname.Validates, ValidErrors;
    if !p.headers.Absent? { WithHostIs(b, UpdatedOrigin(b, p, c), ParseHeaders(p.headers).value); }
  }

  // ---- which requests are refused ----

  /** The list that a request forwards holds a name that is empty or has another character. */
  ghost predicate BadHeaders(p: Param<string>) {
    p.Given? && exists h :: h in Split(WithoutSpaces(p.value), ',') && (h == "" || exists c :: c in h && !HeaderChar(c))
  }

  ghost predicate BadErrors(p: Param<map<string, string>>) {
    p.Null? || (p.Given? && exists code :: code in p.value
                                           && (code !in ERROR_CODES || p.value[code] == "" || p.value[code][0] != '/'))
  }

  /** A policy that is not one of the managed ones. */
  predicate BadPolicy(p: Param<string>, managed: map<string, string>) {
    p.Given? && p.value != "" && p.value !in managed
  }

  lemma BadHeadersAre(p: Param<string>)
    ensures ParseHeaders(p).None? <==> BadHeaders(p)
  {
    if p.Given? {
      var headers := Split(WithoutSpaces(p.value), ',');
      if !ValidHeaders(headers) {
        var i :| 0 <= i < |headers| && (headers[i] == "" || exists c :: c in headers[i] && !HeaderChar(c));
        assert headers[i] in headers;
      }
    }
  }

  /** A provisioning is refused exactly for its origin, headers, error pages or policies, for
      plain HTTP without an origin of its own, or for want of an address for alarms. */
  lemma ProvisionRefusals(b: Broker, p: Params, waf: bool)
    ensures Provision(b, p, waf).None?
       <==> || !Hostname.ValidHostname(match p.origin case Absent => b.defaultOrigin case Null => "" case Given(o) => o)
            || BadHeaders(p.headers) || BadErrors(p.errors)
            || (p.insecure == Given(true) && !p.origin.Given?)
            || (waf && (!p.email.Given? || p.email.value == ""))
            || BadPolicy(p.cachePolicy, b.cachePolicies) || BadPolicy(p.originRequestPolicy, b.originPolicies)
  {
    hide Hostname.Validates, Hostname.ValidHostname, ParseHeaders, BadHeaders;
    Hostname.AcceptanceIsTheGrammar(ProvisionedOrigin(b, p));
    BadHeadersAre(p.headers);
  }

  /** An update likewise: only an origin that it names has to be a hostname, plain HTTP is
      refused where the origin is the default by then, and an old address will do. */
  lemma UpdateRefusals(b: Broker, p: Params, c: Config)
    ensures Update(b, p, c).None?
       <==> || (p.origin.Given? && p.origin.value != "" && !Hostname.ValidHostname(p.origin.value))
            || BadHeaders(p.headers) || BadErrors(p.errors)
            || (p.insecure == Given(true)
                && (p.origin.Null? || p.origin == Given("") || p.origin == Given(b.defaultOrigin)
                    || (p.origin.Absent? && c.origin == b.defaultOrigin)))
            || (c.waf && (!p.email.Given? || p.email.value == "") && (c.email.None? || c.email == Some("")))
            || BadPolicy(p.cachePolicy, b.cachePolicies) || BadPolicy(p.originRequestPolicy, b.originPolicies)
  {
    hide Hostname.Validates, Hostname.ValidHostname, ParseHeaders, BadHeaders;
    Hostname.AcceptanceIsTheGrammar(UpdatedOrigin(b, p, c));
    BadHeadersAre(p.headers);
    assert BadHeaders(p.headers) ==> p.headers.Given? by { BadAreGiven(p.headers); }
  }

  lemma BadAreGiven(p: Param<string>)
    ensures BadHeaders(p) ==> p.Given?
  {
  }

  // ---- what CloudFront and SNS can be given ----

  predicate Managed(id: Option<string>, managed: map<string, string>) {
    id.Some? ==> id.value != "" && id.value in managed.Values
  }

  /** A hostname for the origin, or the default; legal headers and error pages; an address
      for alarms where there are any; managed policies. */
  ghost predicate Usable(b: Broker, c: Config) {
    && (c.origin == b.defaultOrigin || Hostname.ValidHostname(c.origin))
    && ValidHeaders(c.headers)
    && ValidErrors(c.errors)
    && (c.waf ==> c.email.Some? && c.email.value != "")
    && Managed(c.cachePolicy, b.cachePolicies) && Managed(c.originRequestPolicy, b.originPolicies)
  }

  lemma UpperIsLegal(c: char)
    requires HeaderChar(c)
    ensures HeaderChar(UpperChar(c))
  {
  }

  lemma UppersAreLegal(headers: seq<string>)
    requires ValidHeaders(headers)
    ensures ValidHeaders(Uppers(headers))
  {
    forall i, c | 0 <= i < |headers| && c in Upper(headers[i]) ensures HeaderChar(c) {
      var k :| 0 <= k < |headers[i]| && UpperChar(headers[i][k]) == c;
      UpperIsLegal(headers[i][k]);
    }
  }

  lemma WithHostIsLegal(b: Broker, origin: string, headers: seq<string>)
    requires ValidHeaders(headers)
    ensures ValidHeaders(WithHost(b, origin, headers))
  {
    WithHostIs(b, origin, headers);
    UppersAreLegal(headers);
    assert ValidHeaders(["HOST"]);
    var r := WithHost(b, origin, headers);
    forall i | 0 <= i < |r| ensures r[i] != "" && forall c :: c in r[i] ==> HeaderChar(c) {
      assert r[i] in r;
      if r[i] == "HOST" { assert r[i] == ["HOST"][0]; }
    }
  }

  lemma ProvisionedIsUsable(b: Broker, p: Params, waf: bool)
    requires Provision(b, p, waf).Some?
    ensures Usable(b, Provision(b, p, waf).value)
  {
    hide WithHost, Hostname.Validates, Hostname.ValidHostname, ValidErrors, ValidHeaders;
    Hostname.AcceptanceIsTheGrammar(ProvisionedOrigin(b, p));
    assert ValidHeaders(ParseHeaders(p.headers).value) by { HeadersAre(p.headers); }
    WithHostIsLegal(b, ProvisionedOrigin(b, p), ParseHeaders(p.headers).value);
    assert ValidErrors(map[]) by { NoErrors(); }
  }

  lemma NoErrors()
    ensures ValidErrors(map[])
  {
  }

  lemma AppliedIsUsable(b: Broker, p: Params, toWaf: bool, c: Config)
    requires Usable(b, c)
    ensures Usable(b, Apply(b, p, toWaf, c))
  {
    hide WithHost, Hostname.Validates, Hostname.ValidHostname, ValidErrors, ValidHeaders;
    var asked := if toWaf then c.(waf := true) else c;
    if Update(b, p, asked).Some? {
      Hostname.AcceptanceIsTheGrammar(UpdatedOrigin(b, p, asked));
      HeadersAre(p.headers);
      WithHostIsLegal(b, UpdatedOrigin(b, p, asked), UpdatedHeaders(p, asked).value);
    }
  }

  lemma {:induction false} UpdatesKeepUsable(b: Broker, updates: seq<(Params, bool)>, c: Config)
    requires Usable(b, c)
    ensures Usable(b, ApplyAll(b, updates, c))
    decreases |updates|
  {
    hide Usable, Apply;
    if updates != [] {
      AppliedIsUsable(b, updates[0].0, updates[0].1, c);
      UpdatesKeepUsable(b, updates[1..], Apply(b, updates[0].0, updates[0].1, c));
    }
  }

  /** Over one provisioning and any updates, what is stored can be put to use. */
  lemma StoredStaysUsable(b: Broker, p: Params, waf: bool, updates: seq<(Params, bool)>)
    requires Provision(b, p, waf).Some?
    ensures Usable(b, ApplyAll(b, updates, Provision(b, p, waf).value))
  {
    ProvisionedIsUsable(b, p, waf);
    UpdatesKeepUsable(b, updates, Provision(b, p, waf).value);
  }

  /** To repeat an accepted update is accepted again, and changes nothing. */
  lemma RepeatedUpdateChangesNothing(b: Broker, p: Params, c: Config)
    requires Update(b, p, c).Some?
    ensures Update(b, p, Update(b, p, c).value) == Update(b, p, c)
  {
    hide WithHost, ParsePolicy, ParseCookies, ParseHeaders, ValidErrors, Hostname.Validates, Normal;
    var c' := Update(b, p, c).value;
    WithHostIsNormal(b, c'.origin, UpdatedHeaders(p, c).value, c');
    if p.headers.Absent? { NormalHeadersStay(b, c'); }
  }

  /** Normal headers are normalized to themselves, HOST and all. */
  lemma NormalHeadersStay(b: Broker, c: Config)
    requires Normal(b, c)
    ensures WithHost(b, c.origin, c.headers) == c.headers
  {
    HostIsUpper();
    if c.origin == b.defaultOrigin {
      NormalizedAgain(c.headers, ["HOST"]);
    } else {
      NormalizedAgain(c.headers, []);
      assert c.headers + [] == c.headers;
    }
  }

  /** Plain HTTP to the default origin, which both requests mean to refuse. A
      provisioning allows it exactly when the request names the default origin. */
  lemma ProvisionInsecureDefault(b: Broker, p: Params, waf: bool)
    requires Provision(b, p, waf).Some?
    ensures var c := Provision(b, p, waf).value;
            c.protocol.HttpOnly? && c.origin == b.defaultOrigin
            <==> p.insecure == Given(true) && p.origin == Given(b.defaultOrigin)
  {
  }

  /** An update lets it through exactly when the instance was on plain HTTP, the origin
      is now the default, and the request does not say which protocol to use. */
  lemma UpdateInsecureDefault(b: Broker, p: Params, c: Config)
    requires Update(b, p, c).Some?
    ensures var c' := Update(b, p, c).value;
            c'.protocol.HttpOnly? && c'.origin == b.defaultOrigin
            <==> c.protocol.HttpOnly? && UpdatedOrigin(b, p, c) == b.defaultOrigin && p.insecure.Absent?
  {
  }

  // ---- both happen ----

  const ORIGIN := "o.gov"

  lemma OriginIsValid()
    ensures Hostname.Validates(ORIGIN)
  {
    assert ["o", "gov"][1..] == ["gov"];
    assert Join(["o", "gov"], '.') == ORIGIN;
    SplitJoin(["o", "gov"], '.');
    assert Hostname.ValidLabel("o") && Hostname.ValidLabel("gov");
    Hostname.ValidIsMatch(ORIGIN);
  }

  /** A request with these keys and no other. */
  function Only(origin: Param<string>, insecure: Param<bool>): Params {
    Params(origin, Absent, Absent, Absent, insecure, Absent, Absent, Absent, Absent)
  }

  /** A provisioning on plain HTTP that names the default origin is accepted. */
  lemma AnInsecureProvision()
    ensures var b, p := Broker(ORIGIN, map[], map[]), Only(Given(ORIGIN), Given(true));
            && Provision(b, p, false).Some?
            && Provision(b, p, false).value.protocol.HttpOnly?
            && Provision(b, p, false).value.origin == b.defaultOrigin
  {
    OriginIsValid();
    hide Hostname.Validates, WithHost;
  }

  /** An instance on plain HTTP to an origin of its own becomes one on plain HTTP to the
      default origin when an update clears the origin. */
  lemma AnInsecureUpdate()
    ensures var b, p, q := Broker("default.gov", map[], map[]), Only(Given(ORIGIN), Given(true)), Only(Null, Absent);
            && Provision(b, p, false).Some?
            && var c := Provision(b, p, false).value;
               && c.origin != b.defaultOrigin && Update(b, q, c).Some?
               && Update(b, q, c).value.protocol.HttpOnly? && Update(b, q, c).value.origin == b.defaultOrigin
  {
    OriginIsValid();
    hide Hostname.Validates, WithHost;
    assert |ORIGIN| != |"default.gov"|;
  }
}
