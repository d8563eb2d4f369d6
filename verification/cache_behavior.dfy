/**
  Rewriting a distribution's default cache behaviour for an instance: a copied
  dictionary, updated and popped key by key, against what its result means.
 */
module CacheBehavior {
  import opened Wrappers

  datatype Cookies = Whitelist(names: seq<string>) | Forward(policy: string)

  /** A value of the configuration: text, a number, the forwarded values, or a nested
      part that the rewriting never looks into. */
  datatype Value =
    | Text(text: string)
    | Number(n: int)
    | ForwardedValues(cookies: Cookies, headers: seq<string>)
    | Nested(id: nat)

  type Behavior = map<string, Value>

  datatype Instance = Instance(
    cachePolicy: Option<string>,
    originRequestPolicy: Option<string>,
    cookiePolicy: string,
    cookies: seq<string>,
    headers: seq<string>)

  /** Python's truth of a value. */
  predicate Truthy(v: Value) {
    match v
    case Text(text) => text != ""
    case Number(n) => n != 0
    case _ => true
  }

  /** `own or behavior.get(key)`, when that is true. */
  function Chosen(own: Option<string>, behavior: Behavior, key: string): Option<Value> {
    if own.Some? && own.value != "" then Some(Text(own.value))
    else if key in behavior && Truthy(behavior[key]) then Some(behavior[key])
    else None
  }

  function CookiePolicy(i: Instance): Cookies {
    if i.cookiePolicy == "whitelist" then Whitelist(i.cookies) else Forward(i.cookiePolicy)
  }

  predicate IsTtl(key: string) {
    key == "DefaultTTL" || key == "MinTTL" || key == "MaxTTL"
  }

  /** The keys that the rewriting may touch. */
  predicate IsOwn(key: string) {
    IsTtl(key) || key == "CachePolicyId" || key == "ForwardedValues" || key == "OriginRequestPolicyId"
  }

  // ---- what the result is ----

  /** Exactly one of the two ways to say what is cached, and the rest as it was. */
  ghost predicate Rewritten(i: Instance, before: Behavior, after: Behavior) {
    var policy := Chosen(i.cachePolicy, before, "CachePolicyId");
    var origin := Chosen(i.originRequestPolicy, before, "OriginRequestPolicyId");
    && (if policy.Some? then
          && "CachePolicyId" in after && after["CachePolicyId"] == policy.value
          && "ForwardedValues" !in after
          && (forall k :: IsTtl(k) ==> k !in after)
        else
          && "CachePolicyId" !in after
          && "ForwardedValues" in after && after["ForwardedValues"] == ForwardedValues(CookiePolicy(i), i.headers)
          && (forall k :: IsTtl(k) ==> Same(before, after, k)))
    && (if origin.Some? then "OriginRequestPolicyId" in after && after["OriginRequestPolicyId"] == origin.value
        else Same(before, after, "OriginRequestPolicyId"))
    && (forall k :: !IsOwn(k) ==> Same(before, after, k))
  }

  predicate Same(before: Behavior, after: Behavior, k: string) {
    (k in after <==> k in before) && (k in before ==> after[k] == before[k])
  }

  /** The dictionary of the original. */
  class Dict {
    var entries: Behavior

    constructor (entries: Behavior)
      ensures this.entries == entries
    {
      this.entries := entries;
    }

    method Copy() returns (d: Dict)
      ensures fresh(d) && d.entries == entries
    {
      d := new Dict(entries);
    }

    method Update(key: string, v: Value)
      modifies this
      ensures entries == old(entries)[key := v]
    {
      entries := entries[key := v];
    }

    /** With a default, so a missing key is no error. */
    method Pop(key: string)
      modifies this
      ensures entries == old(entries) - {key}
    {
      entries := entries - {key};
    }
  }

  /** The keys set and removed, on maps. */
  lemma EditsRewrite(i: Instance, before: Behavior, mid: Behavior, after: Behavior)
    requires var policy := Chosen(i.cachePolicy, before, "CachePolicyId");
             mid == if policy.Some? then before["CachePolicyId" := policy.value]
                      - {"ForwardedValues"} - {"DefaultTTL"} - {"MinTTL"} - {"MaxTTL"}
                    else before["ForwardedValues" := ForwardedValues(CookiePolicy(i), i.headers)] - {"CachePolicyId"}
    requires var origin := Chosen(i.originRequestPolicy, before, "OriginRequestPolicyId");
             after == if origin.Some? then mid["OriginRequestPolicyId" := origin.value] else mid
    ensures Rewritten(i, before, after)
  {
    assert forall k :: !IsOwn(k) ==> Same(before, mid, k);
  }

  method UpdateDefaultCacheBehavior(i: Instance, behavior: Dict) returns (updated: Dict)
    ensures fresh(updated) && behavior.entries == old(behavior.entries)
    ensures Rewritten(i, behavior.entries, updated.entries)
  {
    hide Rewritten, Chosen, CookiePolicy;
    updated := behavior.Copy();
    var policy := Chosen(i.cachePolicy, behavior.entries, "CachePolicyId");
    var origin := Chosen(i.originRequestPolicy, behavior.entries, "OriginRequestPolicyId");
    if policy.Some? {
      updated.Update("CachePolicyId", policy.value);
      updated.Pop("ForwardedValues");
      updated.Pop("DefaultTTL");
      updated.Pop("MinTTL");
      updated.Pop("MaxTTL");
    } else {
      updated.Update("ForwardedValues", ForwardedValues(CookiePolicy(i), i.headers));
      updated.Pop("CachePolicyId");
    }
    ghost var mid := updated.entries;
    if origin.Some? { updated.Update("OriginRequestPolicyId", origin.value); }
    EditsRewrite(i, behavior.entries, mid, updated.entries);
  }

  // ---- what follows ----

  /** There is exactly one result. */
  lemma RewrittenIsUnique(i: Instance, before: Behavior, a: Behavior, b: Behavior)
    requires Rewritten(i, before, a) && Rewritten(i, before, b)
    ensures a == b
  {
    forall k ensures (k in a <==> k in b) && (k in a ==> a[k] == b[k]) {
      if !IsOwn(k) { assert Same(before, a, k) && Same(before, b, k); }
      if IsTtl(k) {
        if Chosen(i.cachePolicy, before, "CachePolicyId").None? { assert Same(before, a, k) && Same(before, b, k); }
      }
    }
  }

  /** Exactly one of the policy and the forwarded values; no lifetimes beside a policy, and
      without one the lifetimes there were. */
  lemma ExactlyOne(i: Instance, before: Behavior, after: Behavior)
    requires Rewritten(i, before, after)
    ensures "CachePolicyId" in after <==> "ForwardedValues" !in after
    ensures "CachePolicyId" in after ==> Truthy(after["CachePolicyId"])
    ensures forall k :: k in ["DefaultTTL", "MinTTL", "MaxTTL"] ==>
                          if "CachePolicyId" in after then k !in after else Same(before, after, k)
  {
    assert IsTtl("DefaultTTL") && IsTtl("MinTTL") && IsTtl("MaxTTL");
  }

  /** The rest of the configuration is as it was. */
  lemma TheRestStays(i: Instance, before: Behavior, after: Behavior, k: string)
    requires Rewritten(i, before, after)
    requires k !in ["CachePolicyId", "OriginRequestPolicyId", "ForwardedValues", "DefaultTTL", "MinTTL", "MaxTTL"]
    ensures Same(before, after, k)
  {
  }

  /** A policy that is set stays unless the instance has its own. */
  lemma PolicyIsKept(i: Instance, before: Behavior, after: Behavior)
    requires Rewritten(i, before, after)
    requires "CachePolicyId" in before && Truthy(before["CachePolicyId"])
    ensures "CachePolicyId" in after
    ensures i.cachePolicy.None? || i.cachePolicy == Some("") ==> after["CachePolicyId"] == before["CachePolicyId"]
  {
  }

  /** Some text, and not the empty one. */
  predicate Set(own: Option<string>) {
    own.Some? && own.value != ""
  }

  /** The instance's own policy wins; without one a policy that is set stays, and without
      that what to forward is said by the instance's cookies and headers. An origin request
      policy is replaced by the instance's own, and is otherwise as it was. */
  lemma OwnPolicyWins(i: Instance, before: Behavior, after: Behavior)
    requires Rewritten(i, before, after)
    ensures if Set(i.cachePolicy) then
              "CachePolicyId" in after && after["CachePolicyId"] == Text(i.cachePolicy.value)
            else if "CachePolicyId" in before && Truthy(before["CachePolicyId"]) then
              "CachePolicyId" in after && after["CachePolicyId"] == before["CachePolicyId"]
            else
              && "CachePolicyId" !in after && "ForwardedValues" in after
              && after["ForwardedValues"].ForwardedValues? && after["ForwardedValues"].headers == i.headers
              && match after["ForwardedValues"].cookies
                 case Whitelist(names) => i.cookiePolicy == "whitelist" && names == i.cookies
                 case Forward(policy) => i.cookiePolicy != "whitelist" && policy == i.cookiePolicy
    ensures if Set(i.originRequestPolicy) then
              "OriginRequestPolicyId" in after && after["OriginRequestPolicyId"] == Text(i.originRequestPolicy.value)
            else Same(before, after, "OriginRequestPolicyId")
  {
  }

  lemma RewrittenAgain(i: Instance, before: Behavior, after: Behavior)
    requires Rewritten(i, before, after)
    ensures Rewritten(i, after, after)
  {
    var policy := Chosen(i.cachePolicy, before, "CachePolicyId");
    assert Chosen(i.cachePolicy, after, "CachePolicyId") == policy;
    var origin := Chosen(i.originRequestPolicy, before, "OriginRequestPolicyId");
    assert Same(before, after, "OriginRequestPolicyId") || origin.Some?;
    assert Chosen(i.originRequestPolicy, after, "OriginRequestPolicyId") == origin;
  }

  /** To rewrite twice is to rewrite once. */
  lemma RewritingIsIdempotent(i: Instance, before: Behavior, once: Behavior, twice: Behavior)
    requires Rewritten(i, before, once) && Rewritten(i, once, twice)
    ensures twice == once
  {
    RewrittenAgain(i, before, once);
    RewrittenIsUnique(i, once, once, twice);
  }
}
