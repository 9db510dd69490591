/** How rule sets and their rules are named, and what follows for reading and listing them. */
module RuleMembers {
  import opened Rdf
  import opened RuleSets

  const SET_PREFIX := "urn:ots:ruleset:"
  const OTS_RULE := "https://opentriplestore.org/ns#rule"

  // ── Set nodes ─────────────────────────────────────────────────────────────

  function LowerHex(c: char): Option<char> {
    if '0' <= c <= '9' || 'a' <= c <= 'f' then Some(c)
    else if 'A' <= c <= 'F' then Some('a' + (c - 'A'))
    else None
  }

  /** The digits in lower case, if `s` is nothing but hexadecimal digits. */
  function HexDigits(s: string): Option<string> {
    if s == "" then Some("")
    else
      match (LowerHex(s[0]), HexDigits(s[1..]))
      case (Some(c), Some(rest)) => Some([c] + rest)
      case _ => None
  }

  /** The 32 digits of a UUID in its plain, hyphenated, braced or URN form. */
  function ParseUuid(id: string): Option<string> {
    if |id| == 32 then HexDigits(id)
    else if |id| == 36 then
      if id[8] == id[13] == id[18] == id[23] == '-' then
        HexDigits(id[..8] + id[9..13] + id[14..18] + id[19..23] + id[24..])
      else
        None
    else if |id| == 38 && id[0] == '{' && id[37] == '}' then ParseUuid(id[1..37])
    else if |id| == 45 && "urn:uuid:" <= id then ParseUuid(id[9..])
    else None
  }

  function Hyphenated(digits: string): string
    requires |digits| == 32
  {
    digits[..8] + "-" + digits[8..12] + "-" + digits[12..16] + "-" + digits[16..20] + "-" + digits[20..]
  }

  lemma {:induction false} HexDigitsLength(s: string)
    ensures HexDigits(s).Some? ==> |HexDigits(s).value| == |s| && HexDigits(HexDigits(s).value) == HexDigits(s)
  {
    if s != "" {
      HexDigitsLength(s[1..]);
      match (LowerHex(s[0]), HexDigits(s[1..])) {
        case (Some(c), Some(rest)) => assert ([c] + rest)[1..] == rest;
        case _ =>
      }
    }
  }

  lemma UuidLength(id: string)
    ensures ParseUuid(id).Some? ==> |ParseUuid(id).value| == 32 && HexDigits(ParseUuid(id).value) == ParseUuid(id)
    decreases |id|
  {
    if |id| == 32 {
      HexDigitsLength(id);
    } else if |id| == 36 {
      HexDigitsLength(id[..8] + id[9..13] + id[14..18] + id[19..23] + id[24..]);
    } else if |id| == 38 && id[0] == '{' && id[37] == '}' {
      UuidLength(id[1..37]);
    } else if |id| == 45 && "urn:uuid:" <= id {
      UuidLength(id[9..]);
    }
  }

  /** The IRI of the set `id`, if `id` is a UUID. */
  function SetNode(id: string): Option<string> {
    UuidLength(id);
    match ParseUuid(id)
    case None => None
    case Some(digits) => Some(SET_PREFIX + Hyphenated(digits))
  }

  /** All set IRIs have one length, so none is under another: what keeps sets apart. */
  lemma SetNodesHaveOneLength(a: string, b: string)
    requires SetNode(a).Some? && SetNode(b).Some?
    ensures |SetNode(a).value| == |SetNode(b).value| == |SET_PREFIX| + 36
    ensures SetNode(a) != SetNode(b) ==> !(SetNode(a).value <= SetNode(b).value)
  {
    UuidLength(a);
    UuidLength(b);
    if SetNode(a) != SetNode(b) {
      NoPrefix(SetNode(a).value, SetNode(b).value);
    }
  }

  lemma UnhyphenatedAgain(digits: string)
    requires |digits| == 32
    ensures var h := Hyphenated(digits);
            && |h| == 36 && h[8] == h[13] == h[18] == h[23] == '-'
            && h[..8] + h[9..13] + h[14..18] + h[19..23] + h[24..] == digits
  {
    var h := Hyphenated(digits);
    assert h[..8] == digits[..8] && h[9..13] == digits[8..12] && h[14..18] == digits[12..16];
    assert h[19..23] == digits[16..20] && h[24..] == digits[20..];
    assert digits == digits[..8] + digits[8..12] + digits[12..16] + digits[16..20] + digits[20..];
  }

  /** The id a set is listed under, the end of its IRI, names that set again. */
  lemma ListedIdNamesTheSet(id: string)
    requires SetNode(id).Some?
    ensures SET_PREFIX <= SetNode(id).value && SetNode(SetNode(id).value[|SET_PREFIX|..]) == SetNode(id)
  {
    UuidLength(id);
    var digits := ParseUuid(id).value;
    var h := Hyphenated(digits);
    assert SetNode(id).value[|SET_PREFIX|..] == h;
    UnhyphenatedAgain(digits);
    assert ParseUuid(h) == Some(digits);
  }

  predicate IsLowerHex(c: char) {
    '0' <= c <= '9' || 'a' <= c <= 'f'
  }

  /** A UUID as it is written out: 32 lower-case hexadecimal digits, and four hyphens. */
  predicate IsCanonical(id: string) {
    && |id| == 36 && id[8] == id[13] == id[18] == id[23] == '-'
    && forall i | 0 <= i < 36 :: i == 8 || i == 13 || i == 18 || i == 23 || IsLowerHex(id[i])
  }

  /** `c` is `d`, or the same letter from A to F in upper case. */
  predicate SameUpToCase(c: char, d: char) {
    c == d || ('A' <= c <= 'F' && d as int == c as int + 32)
  }

  predicate UpToCase(s: string, t: string) {
    |s| == |t| && forall i | 0 <= i < |s| :: SameUpToCase(s[i], t[i])
  }

  function Plain(id: string): string
    requires |id| == 36
  {
    id[..8] + id[9..13] + id[14..18] + id[19..23] + id[24..]
  }

  /** `s` is a way to write the UUID `id`: with hyphens, without, in braces, as a URN. */
  predicate Writes(s: string, id: string)
    requires IsCanonical(id)
  {
    || UpToCase(s, id)
    || UpToCase(s, Plain(id))
    || (|s| == 38 && s[0] == '{' && s[37] == '}' && UpToCase(s[1..37], id))
    || (|s| == 45 && s[..9] == "urn:uuid:" && UpToCase(s[9..], id))
  }

  lemma {:induction false} HexDigitsAre(s: string, digits: string)
    ensures HexDigits(s) == Some(digits)
            <==> UpToCase(s, digits) && forall i | 0 <= i < |digits| :: IsLowerHex(digits[i])
  {
    if s != "" && digits != "" {
      var rest, more := s[1..], digits[1..];
      HexDigitsAre(rest, more);
      assert LowerHex(s[0]) == Some(digits[0]) <==> SameUpToCase(s[0], digits[0]) && IsLowerHex(digits[0]);
      assert digits == [digits[0]] + more;
      assert UpToCase(s, digits) <==> SameUpToCase(s[0], digits[0]) && UpToCase(rest, more);
      assert (forall i | 0 <= i < |digits| :: IsLowerHex(digits[i]))
             <==> IsLowerHex(digits[0]) && forall i | 0 <= i < |more| :: IsLowerHex(more[i]);
    }
  }

  lemma PlainAgain(id: string)
    requires IsCanonical(id)
    ensures |Plain(id)| == 32 && Hyphenated(Plain(id)) == id
    ensures forall i | 0 <= i < 32 :: IsLowerHex(Plain(id)[i])
  {
    var plain := Plain(id);
    assert plain[..8] == id[..8] && plain[8..12] == id[9..13] && plain[12..16] == id[14..18];
    assert plain[16..20] == id[19..23] && plain[20..] == id[24..];
  }

  lemma UpToCaseTogether(a: string, b: string, c: string, d: string)
    requires |a| == |c|
    ensures UpToCase(a + b, c + d) <==> UpToCase(a, c) && UpToCase(b, d)
  {
    if UpToCase(a + b, c + d) {
      assert forall i | 0 <= i < |a| :: a[i] == (a + b)[i] && c[i] == (c + d)[i];
      assert forall i | 0 <= i < |b| :: b[i] == (a + b)[|a| + i] && d[i] == (c + d)[|c| + i];
    }
  }

  /** The hyphens aside, comparing two UUIDs is comparing their digits. */
  lemma PlainUpToCase(s: string, id: string)
    requires IsCanonical(id) && |s| == 36
    ensures UpToCase(s, id) <==> s[8] == s[13] == s[18] == s[23] == '-' && UpToCase(Plain(s), Plain(id))
  {
    var (s1, id1) := (s[..23] + s[24..], id[..23] + id[24..]);
    var (s2, id2) := (s[..18] + s[19..23] + s[24..], id[..18] + id[19..23] + id[24..]);
    var (s3, id3) := (s[..13] + s[14..18] + s[19..23] + s[24..], id[..13] + id[14..18] + id[19..23] + id[24..]);
    CutTwice(s);
    CutTwice(id);
    PartUpToCase(s, id, 23);
    PartUpToCase(s1, id1, 18);
    PartUpToCase(s2, id2, 13);
    PartUpToCase(s3, id3, 8);
  }

  lemma CutTwice(s: string)
    requires |s| == 36
    ensures var s1, s2 := s[..23] + s[24..], s[..18] + s[19..23] + s[24..];
            var s3 := s[..13] + s[14..18] + s[19..23] + s[24..];
            && s1[18] == s[18] && s1[..18] + s1[19..] == s2
            && s2[13] == s[13] && s2[..13] + s2[14..] == s3
            && s3[8] == s[8] && s3[..8] + s3[9..] == Plain(s)
  {
    var s2 := s[..18] + s[19..23] + s[24..];
    var s3 := s[..13] + s[14..18] + s[19..23] + s[24..];
    assert s2[..13] == s[..13] && s2[14..] == s[14..18] + s[19..23] + s[24..];
    assert s3[..8] == s[..8] && s3[9..] == s[9..13] + s[14..18] + s[19..23] + s[24..];
    assert s3[..8] + s3[9..] == Plain(s);
  }

  /** Leaving out one place where the second text has a hyphen. */
  lemma PartUpToCase(s: string, t: string, k: nat)
    requires |s| == |t| && k < |t| && t[k] == '-'
    ensures UpToCase(s, t) <==> s[k] == '-' && UpToCase(s[..k] + s[k + 1..], t[..k] + t[k + 1..])
  {
    UpToCaseTogether(s[..k], s[k..], t[..k], t[k..]);
    UpToCaseTogether([s[k]], s[k + 1..], [t[k]], t[k + 1..]);
    UpToCaseTogether(s[..k], s[k + 1..], t[..k], t[k + 1..]);
    assert s == s[..k] + s[k..] && t == t[..k] + t[k..];
    assert s[k..] == [s[k]] + s[k + 1..] && t[k..] == [t[k]] + t[k + 1..];
    assert UpToCase([s[k]], [t[k]]) <==> SameUpToCase([s[k]][0], [t[k]][0]);
  }

  /** A text names the set of a UUID exactly when it is one of the ways to write it. So
      different UUIDs name different sets, and all ways to write one the same set. */
  lemma SetNodeIs(s: string, id: string)
    requires IsCanonical(id)
    ensures SetNode(s) == Some("urn:ots:ruleset:" + id) <==> Writes(s, id)
  {
    UuidLength(s);
    PlainAgain(id);
    ParsedAre(s, id);
    if ParseUuid(s).Some? {
      var h := Hyphenated(ParseUuid(s).value);
      UnhyphenatedAgain(ParseUuid(s).value);
      assert h == (SET_PREFIX + h)[|SET_PREFIX|..] && id == (SET_PREFIX + id)[|SET_PREFIX|..];
    }
  }

  /** And whatever names a set is a way to write a UUID. */
  lemma OnlyUuidsNameSets(s: string) returns (id: string)
    requires SetNode(s).Some?
    ensures IsCanonical(id) && Writes(s, id)
  {
    UuidLength(s);
    var digits := ParseUuid(s).value;
    HexDigitsAre(digits, digits);
    id := Hyphenated(digits);
    SetNodeIs(s, id);
  }

  lemma ParsedAre(s: string, id: string)
    requires IsCanonical(id)
    ensures ParseUuid(s) == Some(Plain(id)) <==> Writes(s, id)
    decreases |s|
  {
    if |s| == 32 {
      PlainAgain(id);
      HexDigitsAre(s, Plain(id));
    } else if |s| == 36 {
      PlainAgain(id);
      PlainUpToCase(s, id);
      HexDigitsAre(Plain(s), Plain(id));
    } else if |s| == 38 {
      ParsedAre(s[1..37], id);
    } else if |s| == 45 {
      ParsedAre(s[9..], id);
    }
  }

  // ── Members ───────────────────────────────────────────────────────────────

  const U64_MAX: nat := 0xFFFF_FFFF_FFFF_FFFF

  function Digit(d: nat): char
    requires d < 10
  {
    '0' + (d as char)
  }

  function Show(n: nat): string {
    if n < 10 then [Digit(n)] else Show(n / 10) + [Digit(n % 10)]
  }

  /** Reads decimal digits; `None` for anything else. */
  function ReadDigits(s: string): Option<nat> {
    if s == "" then None
    else
      var last := s[|s| - 1];
      if !('0' <= last <= '9') then None
      else if |s| == 1 then Some((last - '0') as nat)
      else
        match ReadDigits(s[..|s| - 1])
        case None => None
        case Some(n) => Some(10 * n + (last - '0') as nat)
  }

  /** A 64-bit number, as the standard library parses it: digits, with or without a plus. */
  function ParseU64(s: string): Option<nat> {
    match ReadDigits(if |s| > 1 && s[0] == '+' then s[1..] else s)
    case Some(n) => if n <= U64_MAX then Some(n) else None
    case None => None
  }

  function AfterLastColon(s: string): string {
    if s == "" || s[|s| - 1] == ':' then "" else AfterLastColon(s[..|s| - 1]) + [s[|s| - 1]]
  }

  /** The IRI of the `n`-th rule of a set. */
  function MemberIri(set_: string, n: nat): string {
    set_ + ":" + Show(n)
  }

  /** What members are sorted by when a set is listed. */
  function SortKey(member: string): nat {
    match ParseU64(AfterLastColon(member))
    case Some(n) => n
    case None => U64_MAX
  }

  lemma {:induction false} ReadsWhatIsShown(n: nat)
    ensures ReadDigits(Show(n)) == Some(n) && Show(n) != "" && Show(n)[0] != '+'
  {
    if n >= 10 {
      ReadsWhatIsShown(n / 10);
      assert Show(n)[..|Show(n)| - 1] == Show(n / 10);
      assert Show(n / 10) != "";
    }
  }

  lemma {:induction false} NoColonInNumbers(s: string, n: nat)
    ensures AfterLastColon(s + ":" + Show(n)) == Show(n)
  {
    var all := s + ":" + Show(n);
    if n < 10 {
      assert all[..|all| - 1] == s + ":";
    } else {
      NoColonInNumbers(s, n / 10);
      assert all[..|all| - 1] == s + ":" + Show(n / 10);
    }
  }

  lemma KeyOfMember(set_: string, n: nat)
    requires n <= U64_MAX
    ensures SortKey(MemberIri(set_, n)) == n
  {
    NoColonInNumbers(set_, n);
    ReadsWhatIsShown(n);
  }

  /** The members of a set of `n` rules, in the order they were written. */
  function Members(set_: string, n: nat): seq<string> {
    if n == 0 then [] else Members(set_, n - 1) + [MemberIri(set_, n)]
  }

  predicate Sorted(members: seq<string>) {
    forall i, j | 0 <= i < j < |members| :: SortKey(members[i]) <= SortKey(members[j])
  }

  lemma {:induction false} MembersByNumber(set_: string, n: nat, m: string)
    requires m in Members(set_, n) && n <= U64_MAX
    ensures exists i | 1 <= i <= n :: m == MemberIri(set_, i) && SortKey(m) == i
  {
    if m == MemberIri(set_, n) {
      KeyOfMember(set_, n);
    } else {
      MembersByNumber(set_, n - 1, m);
    }
  }

  lemma SortedPrefix(prefix: seq<string>, last: string)
    requires Sorted(prefix + [last])
    ensures Sorted(prefix)
  {
    forall i, j | 0 <= i < j < |prefix|
      ensures SortKey(prefix[i]) <= SortKey(prefix[j])
    {
      assert (prefix + [last])[i] == prefix[i] && (prefix + [last])[j] == prefix[j];
    }
  }

  lemma SameWithoutLast<T>(a: seq<T>, b: seq<T>, last: T)
    requires multiset(a + [last]) == multiset(b + [last])
    ensures multiset(a) == multiset(b)
  {
    assert multiset(a) == multiset(a + [last]) - multiset{last};
    assert multiset(b) == multiset(b + [last]) - multiset{last};
  }

  lemma LastHasTheGreatestKey(listed: seq<string>, m: string)
    requires Sorted(listed) && m in listed
    ensures SortKey(m) <= SortKey(listed[|listed| - 1])
  {
    var j :| 0 <= j < |listed| && listed[j] == m;
    if j < |listed| - 1 {
      assert SortKey(listed[j]) <= SortKey(listed[|listed| - 1]);
    }
  }

  /** The last of the sorted members is the last written. */
  lemma LastListed(set_: string, n: nat, listed: seq<string>)
    requires 0 < n <= U64_MAX && multiset(listed) == multiset(Members(set_, n)) && Sorted(listed)
    ensures listed != [] && listed[|listed| - 1] == MemberIri(set_, n)
  {
    var m := MemberIri(set_, n);
    assert m in multiset(listed) && m in listed;
    var last := listed[|listed| - 1];
    assert last in multiset(listed);
    LastHasTheGreatestKey(listed, m);
    KeyOfMember(set_, n);
    MembersByNumber(set_, n, last);
  }

  /** However the store returns the members, sorting them lists the rules in the order
      they were written: the tenth after the ninth, not after the first. */
  lemma {:induction false} ListedInWrittenOrder(set_: string, n: nat, listed: seq<string>)
    requires n <= U64_MAX && multiset(listed) == multiset(Members(set_, n)) && Sorted(listed)
    ensures listed == Members(set_, n)
  {
    if n == 0 {
      assert |multiset(listed)| == 0;
    } else {
      LastListed(set_, n, listed);
      var prefix, m := listed[..|listed| - 1], MemberIri(set_, n);
      assert listed == prefix + [m];
      SortedPrefix(prefix, m);
      SameWithoutLast(prefix, Members(set_, n - 1), m);
      ListedInWrittenOrder(set_, n - 1, prefix);
    }
  }

  // ── A built set is well-formed ────────────────────────────────────────────

  /** The set's own triples, a link to each rule, and the rules' triples. */
  function Built(iri: string, meta: Graph, rules: seq<Graph>): Graph {
    if rules == [] then meta
    else
      var n := |rules|;
      Built(iri, meta, rules[..n - 1]) + {Triple(Iri(iri), OTS_RULE, Resource(Iri(MemberIri(iri, n))))} + rules[n - 1]
  }

  lemma {:induction false} WaysFromAMember(g: Graph, iri: string, imp: string, way: seq<Node>)
    requires iri <= imp && Reachable(g, iri, Iri(imp)) && IsWay(g, imp, way)
    ensures Reachable(g, iri, way[|way| - 1])
  {
    if |way| > 1 {
      var shorter := way[..|way| - 1];
      assert IsWay(g, imp, shorter);
      WaysFromAMember(g, iri, imp, shorter);
      assert Edge(g, imp, way[|way| - 2], way[|way| - 1]);
      var t :| t in g && t.subj == way[|way| - 2] && t.obj == Resource(way[|way| - 1]) && Follows(imp, t.obj);
      StepIsReachable(g, iri, t);
    }
  }

  /** Rules written under their member IRIs, each reachable from its own node, make a
      well-formed set: the traversal will find all of it. */
  lemma {:induction false} BuiltSetsAreWellFormed(iri: string, meta: Graph, rules: seq<Graph>)
    requires meta != {} && forall t | t in meta :: t.subj == Iri(iri)
    requires forall i, t | 0 <= i < |rules| && t in rules[i] :: Reachable(rules[i], MemberIri(iri, i + 1), t.subj)
    ensures WellFormed(iri, Built(iri, meta, rules))
  {
    var g := Built(iri, meta, rules);
    RootIsReachable(g, iri);
    if rules != [] {
      var n, rest := |rules|, Built(iri, meta, rules[..|rules| - 1]);
      var imp, link := MemberIri(iri, n), Triple(Iri(iri), OTS_RULE, Resource(Iri(MemberIri(iri, n))));
      BuiltSetsAreWellFormed(iri, meta, rules[..n - 1]);
      StepIsReachable(g, iri, link);
      forall t | t in g
        ensures Reachable(g, iri, t.subj)
      {
        if t in rest {
          WaysInLargerGraphs(rest, g, iri, t.subj);
        } else if t in rules[n - 1] {
          WaysInLargerGraphs(rules[n - 1], g, imp, t.subj);
          var way :| IsWay(g, imp, way) && way[|way| - 1] == t.subj;
          WaysFromAMember(g, iri, imp, way);
        }
      }
    }
  }
}
