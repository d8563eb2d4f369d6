/**
  Hostname acceptance equals its grammar: the regular expression with the length
  check accepts exactly what the label rules describe (section 2.3.1 of RFC 1035 as
  relaxed by section 2.1 of RFC 1123), once the string is split on dots.
 */
module Hostname {
  import opened Strings

  // ---- regular expressions ----

  /** [a-zA-Z0-9], [a-zA-Z0-9\-] and the escaped dot. */
  datatype Class = Alphanumeric | AlphanumericOrHyphen | Dot

  datatype Regex =
    | One(c: Class)
    | Then(first: Regex, second: Regex)
    | Either(left: Regex, right: Regex)
    | Repeat(body: Regex, least: nat, most: nat)

  predicate IsAlphanumeric(c: char) {
    'a' <= c <= 'z' || 'A' <= c <= 'Z' || '0' <= c <= '9'
  }

  /** The letters of both cases and the ten digits. */
  lemma AlphanumericsAre(c: char)
    ensures IsAlphanumeric(c) <==> c in LOWER || c in UPPER || c in DIGITS
  {
    LettersAre(c);
  }

  predicate InClass(c: char, k: Class) {
    match k
    case Alphanumeric => IsAlphanumeric(c)
    case AlphanumericOrHyphen => IsAlphanumeric(c) || c == '-'
    case Dot => c == '.'
  }

  function Less(n: nat): nat {
    if n == 0 then 0 else n - 1
  }

  /** The whole string matches. */
  predicate Matches(r: Regex, s: string)
    decreases r, 0
  {
    match r
    case One(c) => |s| == 1 && InClass(s[0], c)
    case Then(a, b) => exists i :: 0 <= i <= |s| && Matches(a, s[..i]) && Matches(b, s[i..])
    case Either(a, b) => Matches(a, s) || Matches(b, s)
    case Repeat(body, least, most) => MatchesRepeated(body, least, most, s)
  }

  predicate MatchesRepeated(body: Regex, least: nat, most: nat, s: string)
    decreases body, 1, most
  {
    || (least == 0 && s == "")
    || (most > 0 &&
        exists i :: 0 <= i <= |s| && Matches(body, s[..i]) && MatchesRepeated(body, Less(least), most - 1, s[i..]))
  }

  // ---- the validator ----

  function Ends(): Regex {
    One(Alphanumeric)
  }

  /** [a-zA-Z0-9][a-zA-Z0-9\-]{0,61}[a-zA-Z0-9] */
  function Long(hyphens: nat): Regex {
    Then(Ends(), Then(Repeat(One(AlphanumericOrHyphen), 0, hyphens), Ends()))
  }

  function Label(hyphens: nat): Regex {
    Either(Ends(), Long(hyphens))
  }

  function Node(hyphens: nat): Regex {
    Then(Label(hyphens), One(Dot))
  }

  function DomainName(hyphens: nat, nodes: nat): Regex {
    Then(Repeat(Node(hyphens), 1, nodes), Long(hyphens))
  }

  /** At most 61 characters between the ends of a label, and 62 labels before the last. */
  predicate Validates(origin: string) {
    Matches(DomainName(61, 62), origin) && |origin| <= 253
  }

  // ---- the grammar ----

  predicate ValidLabel(l: string) {
    && 1 <= |l| <= 63
    && (forall i :: 0 <= i < |l| ==> InClass(l[i], AlphanumericOrHyphen))
    && IsAlphanumeric(l[0])
    && IsAlphanumeric(l[|l| - 1])
  }

  predicate ValidHostname(origin: string) {
    var labels := Split(origin, '.');
    && 2 <= |labels| <= 63
    && (forall i :: 0 <= i < |labels| ==> ValidLabel(labels[i]))
    && |labels[|labels| - 1]| >= 2
    && |origin| <= 253
  }

  // ---- matching, one constructor at a time ----

  lemma OneIs(k: Class, s: string)
    ensures Matches(One(k), s) <==> |s| == 1 && InClass(s[0], k)
  {
  }

  lemma Parted(a: Regex, b: Regex, s: string) returns (i: nat)
    requires Matches(Then(a, b), s)
    ensures i <= |s| && Matches(a, s[..i]) && Matches(b, s[i..]) && s == s[..i] + s[i..]
  {
    i :| 0 <= i <= |s| && Matches(a, s[..i]) && Matches(b, s[i..]);
  }

  lemma Joined(a: Regex, b: Regex, x: string, y: string)
    requires Matches(a, x) && Matches(b, y)
    ensures Matches(Then(a, b), x + y)
  {
    var s, i := x + y, |x|;
    assert s[..i] == x && s[i..] == y;
  }

  lemma EitherIs(a: Regex, b: Regex, s: string)
    ensures Matches(Either(a, b), s) <==> Matches(a, s) || Matches(b, s)
  {
  }

  lemma RepeatIs(body: Regex, least: nat, most: nat, s: string)
    ensures Matches(Repeat(body, least, most), s) <==> MatchesRepeated(body, least, most, s)
  {
  }

  /** The first piece of a match of something repeated. */
  lemma FirstPiece(body: Regex, least: nat, most: nat, s: string) returns (i: nat)
    requires MatchesRepeated(body, least, most, s) && !(least == 0 && s == "")
    ensures i <= |s| && most > 0 && Matches(body, s[..i]) && MatchesRepeated(body, Less(least), most - 1, s[i..])
  {
    i :| 0 <= i <= |s| && Matches(body, s[..i]) && MatchesRepeated(body, Less(least), most - 1, s[i..]);
  }

  lemma NoPieces(body: Regex, most: nat)
    ensures MatchesRepeated(body, 0, most, "")
  {
  }

  lemma AnotherPiece(body: Regex, least: nat, most: nat, piece: string, rest: string)
    requires most > 0 && Matches(body, piece) && MatchesRepeated(body, Less(least), most - 1, rest)
    ensures MatchesRepeated(body, least, most, piece + rest)
  {
    var s, i := piece + rest, |piece|;
    assert s[..i] == piece && s[i..] == rest;
  }

  // ---- one label ----

  predicate AllIn(s: string, k: Class) {
    forall i :: 0 <= i < |s| ==> InClass(s[i], k)
  }

  lemma {:induction false} ClassRepeated(k: Class, least: nat, most: nat, s: string)
    ensures MatchesRepeated(One(k), least, most, s) <==> least <= |s| <= most && AllIn(s, k)
    decreases most
  {
    hide Matches, MatchesRepeated;
    if MatchesRepeated(One(k), least, most, s) && !(least == 0 && s == "") {
      var i := FirstPiece(One(k), least, most, s);
      OneIs(k, s[..i]);
      ClassRepeated(k, Less(least), most - 1, s[1..]);
      assert s[..1][0] == s[0];
      assert forall j :: 0 < j < |s| ==> s[j] == s[1..][j - 1];
    }
    if least <= |s| <= most && AllIn(s, k) {
      if s == "" {
        NoPieces(One(k), most);
      } else {
        ClassRepeated(k, Less(least), most - 1, s[1..]);
        OneIs(k, [s[0]]);
        AnotherPiece(One(k), least, most, [s[0]], s[1..]);
        assert s == [s[0]] + s[1..];
      }
    }
  }

  /** Two alphanumeric ends with letters, digits and hyphens between. */
  predicate LongLabel(s: string, hyphens: nat) {
    && 2 <= |s| <= hyphens + 2
    && (forall i :: 0 <= i < |s| ==> InClass(s[i], AlphanumericOrHyphen))
    && IsAlphanumeric(s[0])
    && IsAlphanumeric(s[|s| - 1])
  }

  /** What follows the first character of a long label. */
  predicate LabelRest(s: string, hyphens: nat) {
    1 <= |s| <= hyphens + 1 && IsAlphanumeric(s[|s| - 1]) && AllIn(s, AlphanumericOrHyphen)
  }

  lemma RestMatches(s: string, hyphens: nat)
    ensures Matches(Then(Repeat(One(AlphanumericOrHyphen), 0, hyphens), Ends()), s) <==> LabelRest(s, hyphens)
  {
    hide Matches, MatchesRepeated;
    var middle := Repeat(One(AlphanumericOrHyphen), 0, hyphens);
    if Matches(Then(middle, Ends()), s) {
      var i := Parted(middle, Ends(), s);
      RepeatIs(One(AlphanumericOrHyphen), 0, hyphens, s[..i]);
      ClassRepeated(AlphanumericOrHyphen, 0, hyphens, s[..i]);
      OneIs(Alphanumeric, s[i..]);
      assert s[i..][0] == s[|s| - 1];
      forall j | 0 <= j < |s| ensures InClass(s[j], AlphanumericOrHyphen) {
        if j < i { assert s[..i][j] == s[j]; }
      }
    }
    if LabelRest(s, hyphens) {
      var i := |s| - 1;
      ClassRepeated(AlphanumericOrHyphen, 0, hyphens, s[..i]);
      RepeatIs(One(AlphanumericOrHyphen), 0, hyphens, s[..i]);
      OneIs(Alphanumeric, [s[i]]);
      Joined(middle, Ends(), s[..i], [s[i]]);
      assert s == s[..i] + [s[i]];
    }
  }

  lemma LongMatches(s: string, hyphens: nat)
    ensures Matches(Long(hyphens), s) <==> LongLabel(s, hyphens)
  {
    hide Matches, MatchesRepeated;
    var rest := Then(Repeat(One(AlphanumericOrHyphen), 0, hyphens), Ends());
    if Matches(Long(hyphens), s) {
      var i := Parted(Ends(), rest, s);
      OneIs(Alphanumeric, s[..i]);
      RestMatches(s[i..], hyphens);
      assert s[..1][0] == s[0];
      assert s[|s| - 1] == s[1..][|s| - 2];
      assert forall j :: 0 < j < |s| ==> s[j] == s[1..][j - 1];
    }
    if LongLabel(s, hyphens) {
      RestMatches(s[1..], hyphens);
      assert s[1..][|s| - 2] == s[|s| - 1];
      OneIs(Alphanumeric, [s[0]]);
      Joined(Ends(), rest, [s[0]], s[1..]);
      assert s == [s[0]] + s[1..];
    }
  }

  lemma LabelMatches(s: string)
    ensures Matches(Label(61), s) <==> ValidLabel(s)
  {
    hide Matches, MatchesRepeated;
    EitherIs(Ends(), Long(61), s);
    OneIs(Alphanumeric, s);
    LongMatches(s, 61);
  }

  lemma NodeMatches(s: string)
    ensures Matches(Node(61), s) <==> s != "" && s[|s| - 1] == '.' && ValidLabel(s[..|s| - 1])
  {
    hide Matches, Label, ValidLabel;
    if s != "" { LabelMatches(s[..|s| - 1]); }
    if Matches(Node(61), s) {
      var i := Parted(Label(61), One(Dot), s);
      OneIs(Dot, s[i..]);
      assert s[i..][0] == s[|s| - 1];
    }
    if s != "" && s[|s| - 1] == '.' && ValidLabel(s[..|s| - 1]) {
      OneIs(Dot, ".");
      Joined(Label(61), One(Dot), s[..|s| - 1], ".");
      assert s == s[..|s| - 1] + ".";
    }
  }

  // ---- many labels ----

  /** Each label followed by its dot. */
  function Dotted(labels: seq<string>): string {
    if labels == [] then "" else labels[0] + "." + Dotted(labels[1..])
  }

  predicate AllValid(labels: seq<string>) {
    forall i :: 0 <= i < |labels| ==> ValidLabel(labels[i])
  }

  /** The first node of a match of the repeated node. */
  lemma FirstNode(least: nat, most: nat, s: string) returns (i: nat)
    requires MatchesRepeated(Node(61), least, most, s) && !(least == 0 && s == "")
    ensures 0 < i <= |s| && most > 0 && s[i - 1] == '.' && ValidLabel(s[..i - 1])
    ensures MatchesRepeated(Node(61), Less(least), most - 1, s[i..])
  {
    hide Matches, MatchesRepeated, Node, ValidLabel;
    i := FirstPiece(Node(61), least, most, s);
    NodeMatches(s[..i]);
    assert s[..i][..i - 1] == s[..i - 1];
  }

  /** From a match of the repeated node, its labels. */
  lemma {:induction false} NodesOf(least: nat, most: nat, s: string) returns (labels: seq<string>)
    requires MatchesRepeated(Node(61), least, most, s)
    ensures least <= |labels| <= most && AllValid(labels) && s == Dotted(labels)
    decreases most
  {
    hide MatchesRepeated, Matches, ValidLabel, Node;
    if least == 0 && s == "" {
      labels := [];
    } else {
      var i := FirstNode(least, most, s);
      var rest := NodesOf(Less(least), most - 1, s[i..]);
      labels := [s[..i - 1]] + rest;
      assert labels[1..] == rest;
      assert s == s[..i - 1] + "." + s[i..];
    }
  }

  lemma {:induction false} NodesMatch(least: nat, most: nat, labels: seq<string>)
    requires least <= |labels| <= most && AllValid(labels)
    ensures MatchesRepeated(Node(61), least, most, Dotted(labels))
    decreases most
  {
    hide Node, ValidLabel, Matches, MatchesRepeated;
    if labels == [] {
      NoPieces(Node(61), most);
    } else {
      var node := labels[0] + ".";
      assert node[..|node| - 1] == labels[0];
      NodeMatches(node);
      NodesMatch(Less(least), most - 1, labels[1..]);
      AnotherPiece(Node(61), least, most, node, Dotted(labels[1..]));
    }
  }

  lemma {:induction false} DottedJoins(labels: seq<string>, last: string)
    ensures Join(labels + [last], '.') == Dotted(labels) + last
    decreases |labels|
  {
    var all := labels + [last];
    if labels == [] {
      assert all == [last];
    } else {
      assert all[1..] == labels[1..] + [last];
      DottedJoins(labels[1..], last);
      assert Join(all, '.') == labels[0] + "." + (Dotted(labels[1..]) + last);
      assert Dotted(labels) + last == labels[0] + "." + (Dotted(labels[1..]) + last);
    }
  }

  lemma NoDots(labels: seq<string>)
    requires AllValid(labels)
    ensures forall i :: 0 <= i < |labels| ==> '.' !in labels[i]
  {
    forall i | 0 <= i < |labels| ensures '.' !in labels[i] {
      assert ValidLabel(labels[i]);
    }
  }

  lemma SplitOfDotted(labels: seq<string>, last: string)
    requires AllValid(labels) && ValidLabel(last)
    ensures Split(Dotted(labels) + last, '.') == labels + [last]
  {
    DottedJoins(labels, last);
    NoDots(labels + [last]);
    SplitJoin(labels + [last], '.');
  }

  /** The parts of a match: the nodes, and the last label. */
  lemma MatchParts(origin: string) returns (labels: seq<string>, last: string)
    requires Matches(DomainName(61, 62), origin)
    ensures 1 <= |labels| <= 62 && AllValid(labels) && ValidLabel(last) && |last| >= 2
    ensures origin == Dotted(labels) + last
  {
    hide Matches, Node, Long, ValidLabel, MatchesRepeated;
    var i := Parted(Repeat(Node(61), 1, 62), Long(61), origin);
    RepeatIs(Node(61), 1, 62, origin[..i]);
    labels := NodesOf(1, 62, origin[..i]);
    last := origin[i..];
    LongMatches(last, 61);
    LongIsValid(last);
  }

  lemma LongIsValid(s: string)
    ensures LongLabel(s, 61) <==> ValidLabel(s) && |s| >= 2
  {
  }

  lemma PartsMatch(labels: seq<string>, last: string)
    requires 1 <= |labels| <= 62 && AllValid(labels) && ValidLabel(last) && |last| >= 2
    ensures Matches(DomainName(61, 62), Dotted(labels) + last)
  {
    hide Matches, Node, Long, ValidLabel, MatchesRepeated;
    NodesMatch(1, 62, labels);
    RepeatIs(Node(61), 1, 62, Dotted(labels));
    LongIsValid(last);
    LongMatches(last, 61);
    Joined(Repeat(Node(61), 1, 62), Long(61), Dotted(labels), last);
  }

  lemma MatchIsValid(origin: string)
    requires Validates(origin)
    ensures ValidHostname(origin)
  {
    hide Matches, ValidLabel, Dotted;
    var labels, last := MatchParts(origin);
    SplitOfDotted(labels, last);
  }

  lemma ValidIsMatch(origin: string)
    requires ValidHostname(origin)
    ensures Validates(origin)
  {
    hide Matches, ValidLabel, Dotted;
    var all := Split(origin, '.');
    var n := |all| - 1;
    JoinSplit(origin, '.');
    assert all[..n] + [all[n]] == all;
    DottedJoins(all[..n], all[n]);
    PartsMatch(all[..n], all[n]);
  }

  /** The validator accepts exactly the hostnames of the grammar. */
  lemma AcceptanceIsTheGrammar(origin: string)
    ensures Validates(origin) <==> ValidHostname(origin)
  {
    if Validates(origin) { MatchIsValid(origin); }
    if ValidHostname(origin) { ValidIsMatch(origin); }
  }
}
