/**
  Cleaning up duplicate load balancer certificates: the search for the listeners
  that hold them, which stops early, and the deletion that commits or rolls back.
 */
module DuplicateCerts {
  import opened Wrappers

  /** The certificates that AWS lists for each listener. */
  type Listing = map<string, set<string>>

  function Certificates(listing: Listing, listener: string): set<string> {
    if listener in listing then listing[listener] else {}
  }

  function Elements(xs: seq<string>): set<string> {
    set x | x in xs
  }

  /** The duplicates that a listener holds. */
  function Matched(duplicates: seq<string>, listing: Listing, listener: string): set<string> {
    Certificates(listing, listener) * Elements(duplicates)
  }

  function AllMatched(duplicates: seq<string>, listeners: seq<string>, listing: Listing): (r: seq<set<string>>)
    ensures |r| == |listeners|
    ensures forall i :: 0 <= i < |r| ==> r[i] == Matched(duplicates, listing, listeners[i])
  {
    seq(|listeners|, i requires 0 <= i < |listeners| => Matched(duplicates, listing, listeners[i]))
  }

  function AllAt(matched: set<string>, listener: string): map<string, string> {
    map arn | arn in matched :: listener
  }

  /** The map from certificate to listener after looking at the first k listeners; a
      later listener overrides an earlier one. */
  function Scan(matches: seq<set<string>>, listeners: seq<string>, k: nat): map<string, string>
    requires k <= |listeners| == |matches|
  {
    if k == 0 then map[]
    else Scan(matches, listeners, k - 1) + AllAt(matches[k - 1], listeners[k - 1])
  }

  /** How many matches there were at the first k listeners. */
  function Count(matches: seq<set<string>>, k: nat): nat
    requires k <= |matches|
  {
    if k == 0 then 0 else Count(matches, k - 1) + |matches[k - 1]|
  }

  function Union(matches: seq<set<string>>, k: nat): set<string>
    requires k <= |matches|
  {
    if k == 0 then {} else Union(matches, k - 1) + matches[k - 1]
  }

  /** Each duplicate is on at most one of the listeners. */
  predicate Apart(matches: seq<set<string>>) {
    forall i, j :: 0 <= i < j < |matches| ==> matches[i] !! matches[j]
  }

  lemma {:induction false} UnionApart(matches: seq<set<string>>, k: nat, j: nat)
    requires Apart(matches) && k <= j < |matches|
    ensures Union(matches, k) !! matches[j]
    decreases k
  {
    if k > 0 { UnionApart(matches, k - 1, j); }
  }

  /** Then what was matched so far was matched once. */
  lemma {:induction false} CountIsSize(matches: seq<set<string>>, k: nat)
    requires k <= |matches| && Apart(matches)
    ensures Count(matches, k) == |Union(matches, k)|
    decreases k
  {
    if k > 0 {
      CountIsSize(matches, k - 1);
      UnionApart(matches, k - 1, k - 1);
    }
  }

  lemma {:induction false} UnionWithin(matches: seq<set<string>>, all: set<string>, k: nat)
    requires k <= |matches| && forall i :: 0 <= i < |matches| ==> matches[i] <= all
    ensures Union(matches, k) <= all
    decreases k
  {
    if k > 0 { UnionWithin(matches, all, k - 1); }
  }

  lemma {:induction false} ElementsAreFewer(xs: seq<string>)
    ensures |Elements(xs)| <= |xs|
  {
    if xs != [] {
      ElementsAreFewer(xs[1..]);
      assert Elements(xs) == Elements(xs[1..]) + {xs[0]};
    }
  }

  /** A subset as large as the whole is the whole. */
  lemma Whole(a: set<string>, b: set<string>)
    requires a <= b && |b| <= |a|
    ensures a == b
  {
    assert b == a + (b - a);
    assert |b - a| == 0;
  }

  /** Once as many certificates are matched as were asked for, a later listener holds
      none of them. */
  lemma AllFound(matches: seq<set<string>>, duplicates: seq<string>, k: nat, j: nat)
    requires k <= j < |matches| && Apart(matches) && Count(matches, k) == |duplicates|
    requires forall i :: 0 <= i < |matches| ==> matches[i] <= Elements(duplicates)
    ensures matches[j] == {}
  {
    CountIsSize(matches, k);
    UnionWithin(matches, Elements(duplicates), k);
    ElementsAreFewer(duplicates);
    Whole(Union(matches, k), Elements(duplicates));
    UnionApart(matches, k, j);
  }

  lemma {:induction false} NothingLeft(matches: seq<set<string>>, listeners: seq<string>, duplicates: seq<string>,
                                       k: nat, n: nat)
    requires k <= n <= |listeners| == |matches| && Apart(matches) && Count(matches, k) == |duplicates|
    requires forall i :: 0 <= i < |matches| ==> matches[i] <= Elements(duplicates)
    ensures Scan(matches, listeners, n) == Scan(matches, listeners, k)
    decreases n - k
  {
    if k < n {
      NothingLeft(matches, listeners, duplicates, k, n - 1);
      AllFound(matches, duplicates, k, n - 1);
      assert AllAt({}, listeners[n - 1]) == map[];
    }
  }

  // ---- exactly when the early stop is right ----

  predicate Distinct(listeners: seq<string>) {
    forall i, j :: 0 <= i < j < |listeners| ==> listeners[i] != listeners[j]
  }

  lemma {:induction false} CountGrows(matches: seq<set<string>>, k: nat, n: nat)
    requires k <= n <= |matches|
    ensures Count(matches, k) <= Count(matches, n)
    ensures Count(matches, k) == Count(matches, n) <==> forall j :: k <= j < n ==> matches[j] == {}
    decreases n
  {
    if k < n { CountGrows(matches, k, n - 1); }
  }

  /** What the last of the listeners says of a certificate that it or a later one holds. */
  lemma {:induction false} ScanIsLatest(matches: seq<set<string>>, listeners: seq<string>, j: nat, n: nat, arn: string)
    requires j < n <= |listeners| == |matches| && arn in matches[j]
    ensures var found := Scan(matches, listeners, n);
            arn in found && exists i :: j <= i < n && found[arn] == listeners[i]
    decreases n
  {
    if arn in matches[n - 1] {
      assert Scan(matches, listeners, n)[arn] == listeners[n - 1];
    } else {
      ScanIsLatest(matches, listeners, j, n - 1, arn);
      assert arn !in AllAt(matches[n - 1], listeners[n - 1]);
    }
  }

  lemma {:induction false} ScanIsOfThese(matches: seq<set<string>>, listeners: seq<string>, k: nat, arn: string)
    requires k <= |listeners| == |matches| && arn in Scan(matches, listeners, k)
    ensures exists i :: 0 <= i < k && Scan(matches, listeners, k)[arn] == listeners[i]
    decreases k
  {
    if k > 0 && arn !in matches[k - 1] {
      assert arn in Scan(matches, listeners, k - 1);
      ScanIsOfThese(matches, listeners, k - 1, arn);
    }
  }

  lemma {:induction false} NoMoreMatches(matches: seq<set<string>>, listeners: seq<string>, k: nat, n: nat)
    requires k <= n <= |listeners| == |matches| && forall j :: k <= j < n ==> matches[j] == {}
    ensures Scan(matches, listeners, k) == Scan(matches, listeners, n)
    decreases n
  {
    if k < n {
      NoMoreMatches(matches, listeners, k, n - 1);
      assert AllAt({}, listeners[n - 1]) == map[];
    }
  }

  /** To look at more listeners changes nothing exactly when they hold no duplicate. */
  lemma ScansAgree(matches: seq<set<string>>, listeners: seq<string>, k: nat, n: nat)
    requires k <= n <= |listeners| == |matches| && Distinct(listeners)
    ensures Scan(matches, listeners, k) == Scan(matches, listeners, n) <==> Count(matches, k) == Count(matches, n)
  {
    hide Distinct, Count, Scan;
    CountGrows(matches, k, n);
    if Count(matches, k) == Count(matches, n) {
      NoMoreMatches(matches, listeners, k, n);
    } else {
      var j :| k <= j < n && matches[j] != {};
      Differ(matches, listeners, k, j, n);
    }
  }

  lemma Differ(matches: seq<set<string>>, listeners: seq<string>, k: nat, j: nat, n: nat)
    requires k <= j < n <= |listeners| == |matches| && Distinct(listeners) && matches[j] != {}
    ensures Scan(matches, listeners, k) != Scan(matches, listeners, n)
  {
    hide Count, Scan;
    var arn :| arn in matches[j];
    ScanIsLatest(matches, listeners, j, n, arn);
    if arn in Scan(matches, listeners, k) { ScanIsOfThese(matches, listeners, k, arn); }
  }

  /** The search stops after the k-th listener, if not before. */
  predicate StopsAt(matches: seq<set<string>>, wanted: nat, k: nat) {
    0 < k <= |matches| && matches[k - 1] != {} && Count(matches, k) == wanted
  }

  /** It stops while there are matches to come. */
  ghost predicate Fooled(matches: seq<set<string>>, wanted: nat) {
    wanted < Count(matches, |matches|) && exists k :: StopsAt(matches, wanted, k)
  }

  /** Stopped at the first place to stop, the search has seen all there is to see
      exactly if it is not fooled. */
  lemma FirstStop(matches: seq<set<string>>, listeners: seq<string>, wanted: nat, k: nat)
    requires |listeners| == |matches| && Distinct(listeners) && StopsAt(matches, wanted, k)
    ensures Scan(matches, listeners, k) == Scan(matches, listeners, |matches|) <==> !Fooled(matches, wanted)
  {
    hide Distinct, Scan, Count;
    ScansAgree(matches, listeners, k, |matches|);
    CountGrows(matches, k, |matches|);
  }

  /** A certificate is mapped to a listener that holds it. */
  predicate Right(found: map<string, string>, duplicates: seq<string>, listing: Listing) {
    forall arn :: arn in found ==> arn in duplicates && arn in Certificates(listing, found[arn])
  }

  lemma StillRight(found: map<string, string>, duplicates: seq<string>, listing: Listing, listener: string)
    requires Right(found, duplicates, listing)
    ensures Right(found + AllAt(Matched(duplicates, listing, listener), listener), duplicates, listing)
  {
  }

  /** The search, which stops once as many certificates are matched as were asked for. */
  method GetMatchingListeners(duplicates: seq<string>, listeners: seq<string>, listing: Listing)
    returns (found: map<string, string>)
    ensures Right(found, duplicates, listing)
    ensures var matches := AllMatched(duplicates, listeners, listing);
            Apart(matches) ==> found == Scan(matches, listeners, |listeners|)
    ensures var matches := AllMatched(duplicates, listeners, listing);
            Distinct(listeners) ==>
              (found == Scan(matches, listeners, |listeners|) <==> !Fooled(matches, |duplicates|))
  {
    hide Right, Matched, AllAt, Apart, Distinct;
    ghost var matches := AllMatched(duplicates, listeners, listing);
    found := map[];
    assert Right(found, duplicates, listing) by { RightAtFirst(duplicates, listing); }
    var all, looked := 0, 0;
    while looked < |listeners|
      invariant looked <= |listeners| && found == Scan(matches, listeners, looked)
      invariant all == Count(matches, looked)
      invariant Right(found, duplicates, listing)
      invariant forall k :: 0 < k <= looked ==> !StopsAt(matches, |duplicates|, k)
    {
      var matched := Matched(duplicates, listing, listeners[looked]);
      StillRight(found, duplicates, listing, listeners[looked]);
      found := found + AllAt(matched, listeners[looked]);
      all := all + |matched|;
      looked := looked + 1;
      if |matched| > 0 && all == |duplicates| {
        assert StopsAt(matches, |duplicates|, looked);
        if Distinct(listeners) { FirstStop(matches, listeners, |duplicates|, looked); }
        if Apart(matches) {
          MatchedAreWanted(duplicates, listeners, listing);
          NothingLeft(matches, listeners, duplicates, looked, |listeners|);
        }
        return;
      }
    }
  }

  lemma RightAtFirst(duplicates: seq<string>, listing: Listing)
    ensures Right(map[], duplicates, listing)
  {
  }

  lemma MatchedAreWanted(duplicates: seq<string>, listeners: seq<string>, listing: Listing)
    ensures forall i :: 0 <= i < |listeners| ==> AllMatched(duplicates, listeners, listing)[i] <= Elements(duplicates)
  {
  }

  /** What a full scan finds: every duplicate that some listener holds. */
  lemma {:induction false} ScanFinds(matches: seq<set<string>>, listeners: seq<string>, k: nat)
    requires k <= |listeners| == |matches|
    ensures Scan(matches, listeners, k).Keys == Union(matches, k)
    decreases k
  {
    if k > 0 { ScanFinds(matches, listeners, k - 1); }
  }

  /** A certificate on two listeners can fool the count: the search stops with one
      duplicate not found that a full scan finds. */
  lemma TwoListenersCanFoolIt()
    ensures var duplicates, listeners := ["a", "b"], ["x", "y", "z"];
            var matches := AllMatched(duplicates, listeners, map["x" := {"a"}, "y" := {"a"}, "z" := {"b"}]);
            && Distinct(listeners) && Fooled(matches, |duplicates|)
            && "b" !in Scan(matches, listeners, 2)
            && "b" in Scan(matches, listeners, 3)
  {
    var duplicates, listeners := ["a", "b"], ["x", "y", "z"];
    var listing: Listing := map["x" := {"a"}, "y" := {"a"}, "z" := {"b"}];
    var matches := AllMatched(duplicates, listeners, listing);
    assert duplicates[0] == "a" && duplicates[1] == "b";
    assert matches[0] == {"a"} && matches[1] == {"a"} && matches[2] == {"b"};
    assert Count(matches, 1) == 1 && Union(matches, 1) == {"a"};
    assert Union(matches, 2) == {"a"} && Union(matches, 3) == {"a", "b"};
    assert StopsAt(matches, 2, 2) && Count(matches, 3) == 3;
    ScanFinds(matches, listeners, 2);
    ScanFinds(matches, listeners, 3);
  }

  // ---- deletion ----

  datatype Certificate = Certificate(arn: string, named: bool)

  /** How the calls of one deletion go: the removal from the listener can raise, or
      not have happened by the time its poll gives up, which goes unnoticed. */
  datatype Removal = Removed | NotYet | Raises

  /** The calls for a certificate succeed: its removal does not raise, and IAM is asked
      to delete it, if it has a name, only when no listener holds it any more. */
  predicate Goes(c: Certificate, attached: map<string, set<string>>, listener: Option<string>,
                 removal: Removal, iamWorks: bool)
  {
    && (listener.Some? ==> !removal.Raises?)
    && (c.named ==>
          iamWorks
          && forall l :: l in attached && c.arn in attached[l] ==> listener == Some(l) && removal.Removed?)
  }

  predicate Unlike(c: Certificate, d: Certificate) {
    c.arn != d.arn || (!c.named && !d.named)
  }

  function Found(found: map<string, string>, arn: string): Option<string> {
    if arn in found then Some(found[arn]) else None
  }

  /** The certificate rows, and AWS: what is attached where, and what IAM has. */
  class Account {
    var rows: map<nat, Certificate>
    var attached: map<string, set<string>>
    var iam: set<string>

    constructor (rows: map<nat, Certificate>, attached: map<string, set<string>>, iam: set<string>)
      ensures this.rows == rows && this.attached == attached && this.iam == iam
    {
      this.rows, this.attached, this.iam := rows, attached, iam;
    }

    predicate InUse(arn: string)
      reads this
    {
      exists l :: l in attached && arn in attached[l]
    }

    /** No listener holds a certificate of the table that IAM has lost. */
    ghost predicate Consistent()
      reads this
    {
      forall id, l :: id in rows && l in attached && rows[id].arn in attached[l] ==> rows[id].arn in iam
    }

    /** Delete the row, take the certificate off the listener, delete it from IAM, and
        only then commit; any exception rolls the row back. */
    method DeleteCertRecordAndResource(id: nat, listener: Option<string>, removal: Removal, iamWorks: bool)
      returns (committed: bool)
      requires id in rows && (listener.Some? ==> listener.value in attached)
      modifies this
      ensures rows == if committed then old(rows) - {id} else old(rows)
      ensures committed <==> Goes(old(rows)[id], old(attached), listener, removal, iamWorks)
      ensures attached == if listener.Some? && removal.Removed?
                          then old(attached)[listener.value := old(attached)[listener.value] - {old(rows)[id].arn}]
                          else old(attached)
      ensures iam == if committed && old(rows)[id].named then old(iam) - {old(rows)[id].arn} else old(iam)
      ensures listener.Some? && removal.Raises? ==> !committed
      ensures committed && old(rows)[id].named ==> iamWorks && !InUse(old(rows)[id].arn)
      ensures !removal.Raises? && iamWorks && !InUse(old(rows)[id].arn) ==> committed
      ensures old(Consistent()) ==> Consistent()
    {
      var c := rows[id];
      var before := rows;
      rows := rows - {id};
      committed := true;
      if listener.Some? {
        if removal.Raises? { committed := false; }
        if removal.Removed? { attached := attached[listener.value := attached[listener.value] - {c.arn}]; }
      }
      assert forall l :: l in attached ==>
                           (c.arn in attached[l]
                            <==> (c.arn in old(attached)[l] && !(listener == Some(l) && removal.Removed?)));
      if committed && c.named {
        if !iamWorks || InUse(c.arn) { committed := false; } else { iam := iam - {c.arn}; }
      }
      if !committed { rows := before; }
    }
  }

  /** One duplicate after another, each taken off the listener that the search found. A
      certificate that is attached elsewhere too is refused by IAM, and its row stays.
      No two certificates have the same ARN, but those that were never uploaded. */
  method RemoveDuplicates(account: Account, duplicates: seq<nat>, found: map<string, string>,
                          calls: seq<(Removal, bool)>)
    returns (removed: set<nat>)
    requires |calls| == |duplicates|
    requires forall i :: 0 <= i < |duplicates| ==> duplicates[i] in account.rows
    requires forall i, j :: 0 <= i < j < |duplicates| ==> duplicates[i] != duplicates[j]
    requires forall i, j :: 0 <= i < j < |duplicates| ==>
                              Unlike(account.rows[duplicates[i]], account.rows[duplicates[j]])
    requires forall arn :: arn in found ==> found[arn] in account.attached
    modifies account
    ensures account.rows == old(account.rows) - removed
    ensures forall id :: id in removed ==> id in duplicates
    ensures forall i :: 0 <= i < |duplicates| ==>
              var c := old(account.rows)[duplicates[i]];
              duplicates[i] in removed <==>
                Goes(c, old(account.attached), Found(found, c.arn), calls[i].0, calls[i].1)
    ensures old(account.Consistent()) ==> account.Consistent()
  {
    removed := {};
    var i := 0;
    while i < |duplicates|
      invariant 0 <= i <= |duplicates|
      invariant account.rows == old(account.rows) - removed
      invariant forall id :: id in removed ==> id in duplicates[..i]
      invariant forall arn :: arn in found ==> found[arn] in account.attached
      invariant old(account.Consistent()) ==> account.Consistent()
      invariant account.attached.Keys == old(account.attached).Keys
      invariant forall j, l ::
                  i <= j < |duplicates| && old(account.rows)[duplicates[j]].named && l in account.attached ==>
                  (old(account.rows)[duplicates[j]].arn in account.attached[l]
                   <==> old(account.rows)[duplicates[j]].arn in old(account.attached)[l])
      invariant forall j :: 0 <= j < i ==>
                  var c := old(account.rows)[duplicates[j]];
                  duplicates[j] in removed <==>
                    Goes(c, old(account.attached), Found(found, c.arn), calls[j].0, calls[j].1)
    {
      var id := duplicates[i];
      assert id !in removed;
      var arn := account.rows[id].arn;
      var listener := Found(found, arn);
      var committed := account.DeleteCertRecordAndResource(id, listener, calls[i].0, calls[i].1);
      assert duplicates[..i + 1] == duplicates[..i] + [id];
      if committed { removed := removed + {id}; }
      i := i + 1;
    }
  }
}
