/**
  CNAME validation decides reachability. Following the records from a domain's
  challenge name (section 3.6.2 of RFC 1034; the name is that of section 8.4 of
  RFC 8555) accepts the domain exactly when its target is reached; otherwise the
  error says how the chain goes wrong.
 */
module Cname {

  /** The CNAME records that resolve; a name without one resolves to "". */
  type Zone = map<string, string>

  datatype Verdict = Accepted | Missing | Loop(at: string) | WrongEnd(last: string)

  function ChallengeName(domain: string): string {
    "_acme-challenge." + domain
  }

  function ChallengeTarget(domain: string, root: string): string {
    "_acme-challenge." + domain + "." + root
  }

  function GetCname(zone: Zone, name: string): string {
    if name != "" && name in zone then zone[name] else ""
  }

  /** Where n records lead; "" once the chain has ended. */
  function Follow(zone: Zone, name: string, n: nat): string {
    if n == 0 then name else GetCname(zone, Follow(zone, name, n - 1))
  }

  predicate ReachedAt(zone: Zone, name: string, target: string, n: nat) {
    n > 0 && Follow(zone, name, n) == target
  }

  ghost predicate Reaches(zone: Zone, name: string, target: string) {
    exists n: nat :: ReachedAt(zone, name, target, n)
  }

  ghost predicate Ends(zone: Zone, name: string) {
    exists n: nat :: Follow(zone, name, n) == ""
  }

  ghost predicate EndsElsewhere(zone: Zone, name: string, target: string) {
    GetCname(zone, name) != "" && Ends(zone, name) && !Reaches(zone, name, target)
  }

  /** Once back at a name it has been at, a chain goes round for ever. */
  lemma {:induction false} GoesRound(zone: Zone, name: string, i: nat, j: nat, n: nat)
    requires i < j && Follow(zone, name, i) == Follow(zone, name, j)
    ensures exists m: nat :: m < j && Follow(zone, name, n) == Follow(zone, name, m)
    decreases n
  {
    if n < j {
    } else {
      GoesRound(zone, name, i, j, n - 1);
      var m: nat :| m < j && Follow(zone, name, n - 1) == Follow(zone, name, m);
      assert Follow(zone, name, n) == Follow(zone, name, m + 1);
      if m + 1 == j { assert Follow(zone, name, m + 1) == Follow(zone, name, i); }
    }
  }

  /** A chain that has ended stays ended. */
  lemma {:induction false} StaysEnded(zone: Zone, name: string, i: nat, n: nat)
    requires i <= n && Follow(zone, name, i) == ""
    ensures Follow(zone, name, n) == ""
    decreases n
  {
    if i < n { StaysEnded(zone, name, i, n - 1); }
  }

  /** The names before the k-th are all but the target, and none is "". */
  ghost predicate Passed(zone: Zone, name: string, target: string, visited: seq<string>) {
    && (forall i :: 0 <= i < |visited| ==> visited[i] == Follow(zone, name, i))
    && (forall i :: 0 <= i < |visited| ==> visited[i] != target && visited[i] != "")
  }

  lemma LoopVerdict(zone: Zone, name: string, target: string, visited: seq<string>, i: nat)
    requires Passed(zone, name, target, visited) && i < |visited| && target != ""
    requires Follow(zone, name, |visited|) == visited[i]
    ensures !Reaches(zone, name, target) && !Ends(zone, name)
  {
    forall n: nat ensures Follow(zone, name, n) != target && Follow(zone, name, n) != "" {
      GoesRound(zone, name, i, |visited|, n);
      var m: nat :| m < |visited| && Follow(zone, name, n) == Follow(zone, name, m);
      assert visited[m] == Follow(zone, name, m);
    }
  }

  lemma EndVerdict(zone: Zone, name: string, target: string, visited: seq<string>)
    requires Passed(zone, name, target, visited) && target != ""
    requires Follow(zone, name, |visited|) == ""
    ensures !Reaches(zone, name, target) && Ends(zone, name)
  {
    forall n: nat ensures !ReachedAt(zone, name, target, n) {
      if n < |visited| {
        assert visited[n] == Follow(zone, name, n);
      } else {
        StaysEnded(zone, name, |visited|, n);
      }
    }
  }

  /** The names with a record that were not visited yet. */
  ghost function Unseen(zone: Zone, visited: seq<string>): set<string> {
    set x | x in zone && x !in visited
  }

  lemma SeenOneMore(zone: Zone, visited: seq<string>, x: string)
    ensures Unseen(zone, visited + [x]) == Unseen(zone, visited) - {x}
    ensures x in zone && x !in visited ==> Unseen(zone, visited + [x]) < Unseen(zone, visited)
  {
    if x in zone && x !in visited { assert x in Unseen(zone, visited); }
  }

  /** The loop of the validator: follow records until the target, the end of the
      chain, or a name seen before. */
  method ErrorForDomain(zone: Zone, domain: string, root: string) returns (v: Verdict)
    ensures v.Accepted? <==> Reaches(zone, ChallengeName(domain), ChallengeTarget(domain, root))
    ensures v.Missing? <==> GetCname(zone, ChallengeName(domain)) == ""
    ensures (v.Loop? <==>
             (!Reaches(zone, ChallengeName(domain), ChallengeTarget(domain, root))
              && !Ends(zone, ChallengeName(domain))))
    ensures v.Loop? ==>
              exists i: nat, j: nat ::
                i < j && Follow(zone, ChallengeName(domain), i) == Follow(zone, ChallengeName(domain), j) == v.at
    ensures v.WrongEnd? <==> EndsElsewhere(zone, ChallengeName(domain), ChallengeTarget(domain, root))
    ensures v.WrongEnd? ==> exists n: nat :: n > 0 && Follow(zone, ChallengeName(domain), n) == v.last != ""
                                     && Follow(zone, ChallengeName(domain), n + 1) == ""
  {
    var name, target := ChallengeName(domain), ChallengeTarget(domain, root);
    assert |name| < |target|;
    var cname := GetCname(zone, name);
    assert Follow(zone, name, 0) == name && Follow(zone, name, 1) == cname;
    var visited := [name];
    if cname == "" {
      EndVerdict(zone, name, target, visited);
      return Missing;
    }
    var last := cname;
    while cname != ""
      invariant Passed(zone, name, target, visited) && |visited| > 0 && visited[0] == name
      invariant cname == Follow(zone, name, |visited|)
      invariant |visited| > 1 ==> cname !in visited && last == visited[|visited| - 1]
      invariant GetCname(zone, name) != ""
      invariant |visited| == 1 ==> cname != ""
      decreases Unseen(zone, visited), cname != ""
    {
      if cname == target {
        assert ReachedAt(zone, name, target, |visited|);
        return Accepted;
      }
      last := cname;
      ghost var before := visited;
      visited := visited + [cname];
      cname := GetCname(zone, last);
      assert cname == Follow(zone, name, |visited|);
      if cname in visited {
        var i :| 0 <= i < |visited| && visited[i] == cname;
        LoopVerdict(zone, name, target, visited, i);
        assert Follow(zone, name, i) == Follow(zone, name, |visited|);
        return Loop(cname);
      }
      // only the first record can lead to a name seen before, and then so does the next
      assert last !in before;
      SeenOneMore(zone, before, last);
    }
    EndVerdict(zone, name, target, visited);
    v := WrongEnd(last);
    assert Follow(zone, name, |visited| - 1) == last;
  }

  ghost predicate InPlace(zone: Zone, domain: string, root: string) {
    Reaches(zone, ChallengeName(domain), ChallengeTarget(domain, root))
  }

  /** A request passes when all its domains do. */
  method Validate(zone: Zone, domains: seq<string>, root: string) returns (errors: seq<Verdict>)
    ensures errors == [] <==> forall d :: d in domains ==> InPlace(zone, d, root)
    ensures |errors| <= |domains| && forall i :: 0 <= i < |errors| ==> !errors[i].Accepted?
  {
    errors := [];
    var i := 0;
    while i < |domains|
      invariant 0 <= i <= |domains| && |errors| <= i
      invariant errors == [] <==> forall j :: 0 <= j < i ==> InPlace(zone, domains[j], root)
      invariant forall j :: 0 <= j < |errors| ==> !errors[j].Accepted?
    {
      var v := ErrorForDomain(zone, domains[i], root);
      if v != Accepted { errors := errors + [v]; }
      i := i + 1;
    }
  }
}
