/**
  Strings as the broker compares, sorts, trims and splits them: Python's order, and
  the ASCII part of its case folding and whitespace.
 */
module Strings {

  // ---- order ----

  /** Python's order of strings. */
  predicate StringLeq(a: string, b: string) {
    || a == ""
    || (b != "" && (a[0] < b[0] || (a[0] == b[0] && StringLeq(a[1..], b[1..]))))
  }

  lemma {:induction false} LeqTotal(a: string, b: string)
    ensures StringLeq(a, b) || StringLeq(b, a)
    decreases |a|
  {
    if a != "" && b != "" && a[0] == b[0] { LeqTotal(a[1..], b[1..]); }
  }

  lemma {:induction false} LeqTransitive(a: string, b: string, c: string)
    requires StringLeq(a, b) && StringLeq(b, c)
    ensures StringLeq(a, c)
    decreases |a|
  {
    if a != "" && a[0] == b[0] && b[0] == c[0] { LeqTransitive(a[1..], b[1..], c[1..]); }
  }

  /** The strings differ first at k, and there the first has the smaller character. */
  predicate SmallerAt(a: string, b: string, k: nat) {
    k < |a| && k < |b| && a[..k] == b[..k] && a[k] < b[k]
  }

  /** A string comes before another when it is a prefix of it, or has the smaller character
      where they first differ. */
  lemma {:induction false} LeqIs(a: string, b: string)
    ensures StringLeq(a, b) <==> a <= b || exists k: nat :: SmallerAt(a, b, k)
    decreases |a|
  {
    if a != "" && b != "" {
      LeqIs(a[1..], b[1..]);
      assert a == [a[0]] + a[1..] && b == [b[0]] + b[1..];
      if a[0] == b[0] {
        if k: nat :| SmallerAt(a[1..], b[1..], k) {
          assert a[..k + 1] == [a[0]] + a[1..][..k] && b[..k + 1] == [b[0]] + b[1..][..k];
          assert SmallerAt(a, b, k + 1);
        }
        if k: nat :| SmallerAt(a, b, k) {
          assert k > 0;
          assert a[1..][..k - 1] == a[..k][1..] && b[1..][..k - 1] == b[..k][1..];
          assert SmallerAt(a[1..], b[1..], k - 1);
        }
      } else {
        if a[0] < b[0] { assert SmallerAt(a, b, 0); }
        if k: nat :| SmallerAt(a, b, k) { assert k > 0 ==> a[..k][0] == b[..k][0]; }
      }
    }
  }

  predicate Ordered(xs: seq<string>) {
    forall i, j :: 0 <= i < j < |xs| ==> StringLeq(xs[i], xs[j])
  }

  function Insert(x: string, sorted: seq<string>): (r: seq<string>)
    ensures multiset(r) == multiset(sorted) + multiset{x}
  {
    if sorted == [] || StringLeq(x, sorted[0]) then [x] + sorted
    else
      assert sorted == [sorted[0]] + sorted[1..];
      [sorted[0]] + Insert(x, sorted[1..])
  }

  function Sorted(xs: seq<string>): (r: seq<string>)
    ensures multiset(r) == multiset(xs)
  {
    if xs == [] then []
    else
      assert xs == [xs[0]] + xs[1..];
      Insert(xs[0], Sorted(xs[1..]))
  }

  lemma InsertMembers(x: string, sorted: seq<string>)
    ensures forall y :: y in Insert(x, sorted) <==> y == x || y in sorted
  {
    forall y ensures y in Insert(x, sorted) <==> y == x || y in sorted {
      assert y in multiset(Insert(x, sorted)) <==> y in multiset(sorted) + multiset{x};
    }
  }

  lemma {:induction false} InsertOrdered(x: string, sorted: seq<string>)
    requires Ordered(sorted)
    ensures Ordered(Insert(x, sorted))
    decreases |sorted|
  {
    var r := Insert(x, sorted);
    if sorted == [] {
    } else if StringLeq(x, sorted[0]) {
      forall j | 0 < j < |r| ensures StringLeq(x, r[j]) {
        if j > 1 { LeqTransitive(x, sorted[0], sorted[j - 1]); }
      }
    } else {
      LeqTotal(x, sorted[0]);
      InsertOrdered(x, sorted[1..]);
      InsertMembers(x, sorted[1..]);
      forall j | 0 < j < |r| ensures StringLeq(r[0], r[j]) {
        assert r[j] in Insert(x, sorted[1..]);
        assert r[j] == x || r[j] in sorted[1..];
      }
      assert forall i, j :: 0 < i < j < |r| ==> r[i] == r[1..][i - 1] && r[j] == r[1..][j - 1];
    }
  }

  lemma {:induction false} SortedIsOrdered(xs: seq<string>)
    ensures Ordered(Sorted(xs))
    decreases |xs|
  {
    if xs != [] {
      SortedIsOrdered(xs[1..]);
      InsertOrdered(xs[0], Sorted(xs[1..]));
    }
  }

  lemma SortedMembers(xs: seq<string>)
    ensures forall x :: x in Sorted(xs) <==> x in xs
    ensures |Sorted(xs)| == |xs|
  {
    forall x ensures x in Sorted(xs) <==> x in xs {
      assert x in multiset(Sorted(xs)) <==> x in multiset(xs);
    }
    assert |multiset(Sorted(xs))| == |multiset(xs)|;
  }

  lemma {:induction false} LeqAntisymmetric(a: string, b: string)
    requires StringLeq(a, b) && StringLeq(b, a)
    ensures a == b
    decreases |a|
  {
    if a != "" && b != "" {
      LeqAntisymmetric(a[1..], b[1..]);
      assert a == [a[0]] + a[1..] && b == [b[0]] + b[1..];
    }
  }

  lemma HeadIsLeast(a: seq<string>, x: string)
    requires Ordered(a) && x in a
    ensures StringLeq(a[0], x)
  {
    var i :| 0 <= i < |a| && a[i] == x;
    if i == 0 { LeqTotal(x, x); }
  }

  lemma HeadsAgree(a: seq<string>, b: seq<string>)
    requires Ordered(a) && Ordered(b) && a != [] && b != [] && multiset(a) == multiset(b)
    ensures a[0] == b[0]
  {
    assert a[0] in multiset(b) && b[0] in multiset(a);
    HeadIsLeast(a, b[0]);
    HeadIsLeast(b, a[0]);
    LeqAntisymmetric(a[0], b[0]);
  }

  lemma TailsAgree(a: seq<string>, b: seq<string>)
    requires a != [] && b != [] && a[0] == b[0] && multiset(a) == multiset(b)
    ensures multiset(a[1..]) == multiset(b[1..])
  {
    assert a == [a[0]] + a[1..] && b == [b[0]] + b[1..];
    assert multiset(a[1..]) == multiset(a) - multiset{a[0]};
    assert multiset(b[1..]) == multiset(b) - multiset{b[0]};
  }

  lemma {:induction false} OrderedUnique(a: seq<string>, b: seq<string>)
    requires Ordered(a) && Ordered(b) && multiset(a) == multiset(b)
    ensures a == b
    decreases |a|
  {
    assert |multiset(a)| == |a| && |multiset(b)| == |b|;
    if a != [] {
      HeadsAgree(a, b);
      TailsAgree(a, b);
      OrderedUnique(a[1..], b[1..]);
      assert a == [a[0]] + a[1..] && b == [b[0]] + b[1..];
    }
  }

  /** Two lists sort alike exactly when they hold the same strings as often. */
  lemma SortedAlike(a: seq<string>, b: seq<string>)
    ensures Sorted(a) == Sorted(b) <==> multiset(a) == multiset(b)
  {
    if multiset(a) == multiset(b) {
      SortedIsOrdered(a);
      SortedIsOrdered(b);
      OrderedUnique(Sorted(a), Sorted(b));
    }
  }

  // ---- case and whitespace ----

  function LowerChar(c: char): char {
    if 'A' <= c <= 'Z' then (c as int + 32) as char else c
  }

  function UpperChar(c: char): char {
    if 'a' <= c <= 'z' then (c as int - 32) as char else c
  }

  function Lower(s: string): (r: string)
    ensures |r| == |s|
    ensures forall i :: 0 <= i < |s| ==> r[i] == LowerChar(s[i])
  {
    seq(|s|, i requires 0 <= i < |s| => LowerChar(s[i]))
  }

  function Upper(s: string): (r: string)
    ensures |r| == |s|
    ensures forall i :: 0 <= i < |s| ==> r[i] == UpperChar(s[i])
  {
    seq(|s|, i requires 0 <= i < |s| => UpperChar(s[i]))
  }

  const LOWER := "abcdefghijklmnopqrstuvwxyz"
  const UPPER := "ABCDEFGHIJKLMNOPQRSTUVWXYZ"
  const DIGITS := "0123456789"

  lemma LettersAre(c: char)
    ensures c in LOWER <==> 'a' <= c <= 'z'
    ensures c in UPPER <==> 'A' <= c <= 'Z'
    ensures c in DIGITS <==> '0' <= c <= '9'
  {
  }

  /** The n-th letters of the two cases belong together, and nothing but letters changes. */
  lemma CaseIs(c: char)
    ensures c in UPPER ==> LowerChar(c) in LOWER && UpperChar(LowerChar(c)) == c
    ensures c in LOWER ==> UpperChar(c) in UPPER && LowerChar(UpperChar(c)) == c
    ensures c !in UPPER ==> LowerChar(c) == c
    ensures c !in LOWER ==> UpperChar(c) == c
  {
    hide LOWER, UPPER, DIGITS;
    LettersAre(c);
    LettersAre(LowerChar(c));
    LettersAre(UpperChar(c));
  }

  /** In lower case nothing is upper-case, and it is the same text but for case. */
  lemma LowerIs(s: string)
    ensures forall c :: c in Lower(s) ==> c !in UPPER
    ensures Upper(Lower(s)) == Upper(s)
  {
    hide LOWER, UPPER, LowerChar, UpperChar;
    forall k | 0 <= k < |s| ensures LowerChar(s[k]) !in UPPER && UpperChar(LowerChar(s[k])) == UpperChar(s[k]) {
      OneLower(s[k]);
    }
  }

  lemma OneLower(c: char)
    ensures LowerChar(c) !in UPPER && UpperChar(LowerChar(c)) == UpperChar(c)
  {
    hide LOWER, UPPER, DIGITS;
    LettersAre(LowerChar(c));
  }

  predicate IsSpace(c: char) {
    c == ' ' || '\t' <= c <= '\r'
  }

  predicate Trimmed(s: string) {
    s == "" || (!IsSpace(s[0]) && !IsSpace(s[|s| - 1]))
  }

  function Strip(s: string): (r: string)
    ensures Trimmed(r)
    ensures Trimmed(s) ==> r == s
    decreases |s|
  {
    if s != "" && IsSpace(s[0]) then Strip(s[1..])
    else if s != "" && IsSpace(s[|s| - 1]) then Strip(s[..|s| - 1])
    else s
  }

  predicate Blank(s: string) {
    forall c :: c in s ==> IsSpace(c)
  }

  /** Stripping takes whitespace off both ends, and nothing else. */
  lemma {:induction false} StripIs(s: string) returns (left: string, right: string)
    ensures s == left + Strip(s) + right && Blank(left) && Blank(right) && Trimmed(Strip(s))
    decreases |s|
  {
    if s != "" && IsSpace(s[0]) {
      left, right := StripIs(s[1..]);
      left := [s[0]] + left;
      assert s == [s[0]] + s[1..];
    } else if s != "" && IsSpace(s[|s| - 1]) {
      left, right := StripIs(s[..|s| - 1]);
      right := right + [s[|s| - 1]];
      assert s == s[..|s| - 1] + [s[|s| - 1]];
    } else {
      left, right := "", "";
    }
  }

  lemma {:induction false} BlankIsStripped(s: string)
    requires Blank(s)
    ensures Strip(s) == ""
    decreases |s|
  {
    if s != "" {
      assert s[0] in s;
      BlankIsStripped(s[1..]);
    }
  }

  /** What stands between whitespace is found. */
  lemma {:induction false} StripFinds(left: string, name: string, right: string)
    requires Blank(left) && Blank(right) && Trimmed(name)
    ensures Strip(left + name + right) == name
    decreases |left|, |right|
  {
    var s := left + name + right;
    if name == "" {
      assert s == left + right;
      BlankIsStripped(s);
    } else if left != "" {
      assert left[0] in left && s[0] == left[0] && s[1..] == left[1..] + name + right;
      StripFinds(left[1..], name, right);
    } else if right != "" {
      var n := |right| - 1;
      assert right[n] in right && s[|s| - 1] == right[n] && s[..|s| - 1] == left + name + right[..n];
      assert s[0] == name[0];
      StripFinds(left, name, right[..n]);
    } else {
      assert s == name;
    }
  }

  // ---- splitting ----

  /** The pieces between separators; one more than there are separators. */
  function Split(s: string, separator: char): (r: seq<string>)
    ensures r != []
    decreases |s|
  {
    if s == "" then [""]
    else if s[0] == separator then [""] + Split(s[1..], separator)
    else
      var rest := Split(s[1..], separator);
      [[s[0]] + rest[0]] + rest[1..]
  }

  function Join(pieces: seq<string>, separator: char): string
    requires pieces != []
  {
    if |pieces| == 1 then pieces[0] else pieces[0] + [separator] + Join(pieces[1..], separator)
  }

  lemma {:induction false} JoinSplit(s: string, separator: char)
    ensures Join(Split(s, separator), separator) == s
    decreases |s|
  {
    if s != "" {
      JoinSplit(s[1..], separator);
      var rest := Split(s[1..], separator);
      if s[0] == separator {
        assert ([""] + rest)[1..] == rest;
        assert s == [separator] + s[1..];
      } else {
        var r := [[s[0]] + rest[0]] + rest[1..];
        assert r[1..] == rest[1..];
        assert s == [s[0]] + s[1..];
        if |rest| == 1 {
        } else {
          assert [s[0]] + (rest[0] + [separator] + Join(rest[1..], separator))
              == ([s[0]] + rest[0]) + [separator] + Join(rest[1..], separator);
        }
      }
    }
  }

  /** No piece holds the separator. */
  lemma {:induction false} SplitPieces(s: string, separator: char)
    ensures forall i :: 0 <= i < |Split(s, separator)| ==> separator !in Split(s, separator)[i]
    decreases |s|
  {
    if s != "" {
      SplitPieces(s[1..], separator);
      var rest := Split(s[1..], separator);
      forall i | 0 <= i < |Split(s, separator)| ensures separator !in Split(s, separator)[i] {
        if s[0] == separator {
          if i > 0 { assert Split(s, separator)[i] == rest[i - 1]; }
        } else {
          if i > 0 { assert Split(s, separator)[i] == rest[i]; }
        }
      }
    }
  }

  /** Splitting undoes joining pieces without separators. */
  lemma {:induction false} SplitJoin(pieces: seq<string>, separator: char)
    requires pieces != [] && forall i :: 0 <= i < |pieces| ==> separator !in pieces[i]
    ensures Split(Join(pieces, separator), separator) == pieces
    decreases |pieces|, |pieces[0]|
  {
    var s := Join(pieces, separator);
    if pieces[0] == "" {
      if |pieces| > 1 {
        SplitJoin(pieces[1..], separator);
        assert s == [separator] + Join(pieces[1..], separator);
        assert s[1..] == Join(pieces[1..], separator);
      } else {
        assert pieces == [""];
      }
    } else {
      var less := [pieces[0][1..]] + pieces[1..];
      forall i | 0 <= i < |less| ensures separator !in less[i] {
        if i == 0 {
          assert forall c :: c in pieces[0][1..] ==> c in pieces[0];
        } else {
          assert less[i] == pieces[i];
        }
      }
      SplitJoin(less, separator);
      assert less[1..] == pieces[1..];
      assert pieces[0] == [pieces[0][0]] + pieces[0][1..];
      assert s[0] == pieces[0][0] && s[0] in pieces[0];
      assert s[1..] == Join(less, separator);
    }
  }
}
