/**
  The two functions that assign a CDN instance's columns one by one, proved to do what
  module CdnParams says. A method that returns false raised; what it had assigned by
  then is lost with the session.
 */
module CdnParamBodies {
  import opened Wrappers
  import opened CdnParams
  import Hostname

  class CdnInstance {
    var waf: bool
    var origin: string
    var path: Option<string>
    var cookies: Cookies
    var headers: seq<string>
    var errors: map<string, string>
    var protocol: Protocol
    var email: Option<string>
    var cachePolicy: Option<string>
    var originRequestPolicy: Option<string>

    constructor (waf: bool)
      ensures this.waf == waf && email.None? && cachePolicy.None? && originRequestPolicy.None?
    {
      this.waf := waf;
      origin, path, cookies, headers, errors, protocol := "", None, All, [], map[], HttpsOnly;
      email, cachePolicy, originRequestPolicy := None, None, None;
    }

    function Snapshot(): Config
      reads this
    {
      Config(waf, origin, path, cookies, headers, errors, protocol, email, cachePolicy, originRequestPolicy)
    }

    // ---- one column at a time ----

    /** Assign the policies that the request names. */
    method SetPolicies(b: Broker, p: Params) returns (ok: bool)
      modifies `cachePolicy, `originRequestPolicy
      ensures var cache := ParsePolicy(p.cachePolicy, b.cachePolicies);
              var request := ParsePolicy(p.originRequestPolicy, b.originPolicies);
              && (ok <==> cache.Some? && request.Some?)
              && (ok ==> cachePolicy == Or(cache.value, old(cachePolicy)))
              && (ok ==> originRequestPolicy == Or(request.value, old(originRequestPolicy)))
    {
      var cache := ParsePolicy(p.cachePolicy, b.cachePolicies);
      if cache.None? { return false; }
      if cache.value.Some? { cachePolicy := cache.value; }
      var request := ParsePolicy(p.originRequestPolicy, b.originPolicies);
      if request.None? { return false; }
      if request.value.Some? { originRequestPolicy := request.value; }
      ok := true;
    }

    /** The default origin joins HOST to the headers. */
    method SetHeaders(b: Broker, forwarded: seq<string>)
      modifies `headers
      ensures headers == WithHost(b, origin, forwarded)
    {
      var all := forwarded;
      if origin == b.defaultOrigin { all := all + ["HOST"]; }
      headers := NormalizeHeaders(all);
    }

    /** An empty dictionary when the key is absent. */
    method SetErrors(p: Params, absent: map<string, string>) returns (ok: bool)
      modifies `errors
      ensures ok <==> !(p.errors.Null? || (p.errors.Given? && !ValidErrors(p.errors.value)))
      ensures ok ==> errors == if p.errors.Given? then p.errors.value else absent
    {
      if p.errors.Null? { return false; }
      errors := if p.errors.Given? then p.errors.value else absent;
      ok := !p.errors.Given? || ValidErrors(errors);
    }

    method ProvisionOrigin(b: Broker, p: Params) returns (ok: bool)
      modifies `origin
      ensures origin == if p.origin.Absent? then b.defaultOrigin else if p.origin.Null? then "" else p.origin.value
      ensures ok <==> Hostname.Validates(origin)
    {
      origin := if p.origin.Absent? then b.defaultOrigin else if p.origin.Null? then "" else p.origin.value;
      ok := Hostname.Validates(origin);
    }

    method ProvisionProtocol(p: Params) returns (ok: bool)
      modifies `protocol
      ensures ok <==> !(p.insecure == Given(true) && !p.origin.Given?)
      ensures ok ==> protocol == if p.insecure == Given(true) then HttpOnly else HttpsOnly
    {
      if p.insecure == Given(true) {
        if !p.origin.Given? { return false; }
        protocol := HttpOnly;
      } else {
        protocol := HttpsOnly;
      }
      ok := true;
    }

    method ProvisionEmail(p: Params) returns (ok: bool)
      requires email.None?
      modifies `email
      ensures ok <==> !(waf && !Truthy(p.email))
      ensures ok ==> email == if waf then Some(p.email.value) else None
    {
      if waf {
        if !Truthy(p.email) { return false; }
        email := Some(p.email.value);
      }
      ok := true;
    }

    method UpdateOrigin(b: Broker, p: Params) returns (ok: bool)
      modifies `origin
      ensures ok <==> !(Truthy(p.origin) && !Hostname.Validates(old(UpdatedOrigin(b, p, Snapshot()))))
      ensures ok ==> origin == old(UpdatedOrigin(b, p, Snapshot()))
    {
      if !p.origin.Absent? {
        if Truthy(p.origin) {
          if !Hostname.Validates(p.origin.value) { return false; }
          origin := p.origin.value;
        } else {
          origin := b.defaultOrigin;
        }
      }
      ok := true;
    }

    method UpdateHeaders(b: Broker, p: Params) returns (ok: bool)
      modifies `headers
      ensures ok <==> old(UpdatedHeaders(p, Snapshot())).Some?
      ensures ok ==> headers == WithHost(b, origin, old(UpdatedHeaders(p, Snapshot())).value)
    {
      var forwarded := if p.headers.Absent? then Some(headers) else ParseHeaders(p.headers);
      if forwarded.None? { return false; }
      SetHeaders(b, forwarded.value);
      ok := true;
    }

    method UpdateProtocol(b: Broker, p: Params) returns (ok: bool)
      modifies `protocol
      ensures ok <==> !(p.insecure == Given(true) && origin == b.defaultOrigin)
      ensures ok ==> protocol == if p.insecure.Absent? then old(protocol)
                                 else if p.insecure == Given(true) then HttpOnly else HttpsOnly
    {
      if !p.insecure.Absent? {
        if p.insecure == Given(true) {
          if origin == b.defaultOrigin { return false; }
          protocol := HttpOnly;
        } else {
          protocol := HttpsOnly;
        }
      }
      ok := true;
    }

    method UpdateEmail(p: Params) returns (ok: bool)
      modifies `email
      ensures email == if waf && Truthy(p.email) then Some(p.email.value) else old(email)
      ensures ok <==> !(waf && (email.None? || email == Some("")))
    {
      if waf && Truthy(p.email) {
        email := Some(p.email.value);
      } else if waf && (email.None? || email.value == "") {
        return false;
      }
      ok := true;
    }

    // ---- the two requests ----

    /** The first half of a provisioning: where requests go and what is forwarded. */
    method ProvisionForwarding(b: Broker, p: Params) returns (ok: bool)
      modifies `origin, `path, `cookies, `headers
      ensures ok <==> Hostname.Validates(ProvisionedOrigin(b, p)) && ParseHeaders(p.headers).Some?
      ensures ok ==>
                && origin == ProvisionedOrigin(b, p)
                && path == (if p.path.Absent? then Some("") else if p.path.Null? then None else Some(p.path.value))
                && cookies == ParseCookies(p.cookies)
                && headers == WithHost(b, origin, ParseHeaders(p.headers).value)
    {
      hide Hostname.Validates, ParseCookies, ParseHeaders, WithHost;
      ok := ProvisionOrigin(b, p);
      if !ok { return; }
      path := if p.path.Absent? then Some("") else if p.path.Null? then None else Some(p.path.value);
      cookies := ParseCookies(p.cookies);
      var forwarded := ParseHeaders(p.headers);
      if forwarded.None? { return false; }
      SetHeaders(b, forwarded.value);
    }

    method Provision(b: Broker, p: Params) returns (ok: bool)
      requires email.None? && cachePolicy.None? && originRequestPolicy.None?
      modifies this
      ensures ok <==> Provisionable(b, p, old(waf))
      ensures ok ==> Snapshot() == Provisioned(b, p, old(waf))
    {
      hide Hostname.Validates, ParseCookies, ParseHeaders, WithHost, ValidErrors, ParsePolicy;
      ok := ProvisionForwarding(b, p);
      if !ok { return; }
      ok := SetErrors(p, map[]);
      if !ok { return; }
      ok := ProvisionProtocol(p);
      if !ok { return; }
      ok := ProvisionEmail(p);
      if !ok { return; }
      ok := SetPolicies(b, p);
    }

    /** The first half of an update: where requests go and what is forwarded. */
    method UpdateForwarding(b: Broker, p: Params) returns (ok: bool)
      modifies `origin, `path, `cookies, `headers
      ensures var c := old(Snapshot());
              && (ok <==>
                    (!(Truthy(p.origin) && !Hostname.Validates(UpdatedOrigin(b, p, c))) && UpdatedHeaders(p, c).Some?))
              && (ok ==> origin == UpdatedOrigin(b, p, c) && headers == WithHost(b, origin, UpdatedHeaders(p, c).value))
              && (ok ==>
                    path == if p.path.Absent? then c.path else if p.path.Null? then Some("") else Some(p.path.value))
              && (ok ==> cookies == if p.cookies.Absent? then c.cookies else ParseCookies(p.cookies))
    {
      hide Hostname.Validates, ParseCookies, ParseHeaders, WithHost;
      ok := UpdateOrigin(b, p);
      if !ok { return; }
      if !p.path.Absent? { path := if p.path.Null? then Some("") else Some(p.path.value); }
      if !p.cookies.Absent? { cookies := ParseCookies(p.cookies); }
      ok := UpdateHeaders(b, p);
    }

    /** The second half: everything that may still be refused. */
    method UpdateRest(b: Broker, p: Params) returns (ok: bool)
      modifies `protocol, `errors, `email, `cachePolicy, `originRequestPolicy
      ensures var c := old(Snapshot());
              var cache := ParsePolicy(p.cachePolicy, b.cachePolicies);
              var request := ParsePolicy(p.originRequestPolicy, b.originPolicies);
              && (ok <==>
                    && !(p.insecure == Given(true) && origin == b.defaultOrigin)
                    && !p.errors.Null? && (p.errors.Given? ==> ValidErrors(p.errors.value))
                    && !(c.waf && (UpdatedEmail(p, c).None? || UpdatedEmail(p, c) == Some("")))
                    && cache.Some? && request.Some?)
              && (ok ==> protocol == if p.insecure.Absent? then c.protocol
                                     else if p.insecure == Given(true) then HttpOnly else HttpsOnly)
              && (ok ==> errors == (if p.errors.Given? then p.errors.value else c.errors))
              && (ok ==> email == UpdatedEmail(p, c))
              && (ok ==> cachePolicy == Or(cache.value, c.cachePolicy))
              && (ok ==> originRequestPolicy == Or(request.value, c.originRequestPolicy))
    {
      hide ValidErrors, ParsePolicy;
      ok := UpdateProtocol(b, p);
      if !ok { return; }
      ok := SetErrors(p, errors);
      if !ok { return; }
      ok := UpdateEmail(p);
      if !ok { return; }
      ok := SetPolicies(b, p);
    }

    method Update(b: Broker, p: Params) returns (ok: bool)
      modifies this
      ensures ok <==> Updatable(b, p, old(Snapshot()))
      ensures ok ==> Snapshot() == Updated(b, p, old(Snapshot()))
    {
      hide Hostname.Validates, ParseCookies, ParseHeaders, WithHost, ValidErrors, ParsePolicy, Truthy;
      hide UpdatedHeaders, UpdatedOrigin;
      ok := UpdateForwarding(b, p);
      if ok { ok := UpdateRest(b, p); }
    }
  }
}
