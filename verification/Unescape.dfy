/** Unescaping the body of an N-Triples literal by a chain of whole-string replacements,
    against a decoder that reads the body once. Strings are sequences of code points. */
module Unescape {
  import opened Rdf

  type Text = seq<nat>

  const NUL: nat := 0
  const BACKSLASH: nat := 92
  const QUOTE: nat := 34
  const NEWLINE: nat := 10
  const RETURN: nat := 13
  const TAB: nat := 9
  const LOWER_N: nat := 110
  const LOWER_R: nat := 114
  const LOWER_T: nat := 116
  const LOWER_U: nat := 117
  const UPPER_U: nat := 85
  const MAX_CODE_POINT: nat := 0x10FFFF

  // ── The chain ─────────────────────────────────────────────────────────────

  /** Every occurrence of `pattern`, left to right without overlap, becomes `value`. */
  function Replace(s: Text, pattern: Text, value: Text): Text
    requires pattern != []
  {
    if s == [] then []
    else if pattern <= s then value + Replace(s[|pattern|..], pattern, value)
    else [s[0]] + Replace(s[1..], pattern, value)
  }

  function HexValue(c: nat): Option<nat> {
    if 48 <= c <= 57 then Some(c - 48)
    else if 97 <= c <= 102 then Some(c - 97 + 10)
    else if 65 <= c <= 70 then Some(c - 65 + 10)
    else None
  }

  /** Whether `s` begins with `n` hexadecimal digits. */
  predicate BeginsWithHex(s: Text, n: nat) {
    n == 0 || (s != [] && HexValue(s[0]).Some? && BeginsWithHex(s[1..], n - 1))
  }

  /** The number the first `n` of them write, after `high`. */
  function ReadHex(s: Text, n: nat, high: nat): nat
    requires BeginsWithHex(s, n)
    decreases n
  {
    if n == 0 then high else ReadHex(s[1..], n - 1, high * 16 + HexValue(s[0]).value)
  }

  /** The length and the code point of a numeric escape at the start of `s`. */
  function NumericEscape(s: Text): Option<(nat, nat)> {
    if |s| < 2 || s[0] != BACKSLASH then None
    else if s[1] == LOWER_U && BeginsWithHex(s[2..], 4) then Some((6, ReadHex(s[2..], 4, 0)))
    else if s[1] == UPPER_U && BeginsWithHex(s[2..], 8) then Some((10, ReadHex(s[2..], 8, 0)))
    else None
  }

  lemma {:induction false} HexPrefixLength(s: Text, n: nat)
    requires BeginsWithHex(s, n)
    ensures n <= |s|
  {
    if n > 0 {
      HexPrefixLength(s[1..], n - 1);
    }
  }

  lemma NumericEscapeLength(s: Text)
    ensures NumericEscape(s).Some? ==> 6 <= NumericEscape(s).value.0 <= |s|
  {
    if |s| >= 2 && BeginsWithHex(s[2..], 4) {
      HexPrefixLength(s[2..], 4);
    }
    if |s| >= 2 && BeginsWithHex(s[2..], 8) {
      HexPrefixLength(s[2..], 8);
    }
  }

  /** Every numeric escape becomes its character; `None` when one is no code point. */
  function SubstituteNumeric(s: Text): Option<Text> {
    if s == [] then Some([])
    else
      NumericEscapeLength(s);
      match NumericEscape(s)
      case Some((n, c)) =>
        if c > MAX_CODE_POINT then None
        else Prepend(c, SubstituteNumeric(s[n..]))
      case None => Prepend(s[0], SubstituteNumeric(s[1..]))
  }

  function Prepend(c: nat, rest: Option<Text>): Option<Text> {
    match rest
    case None => None
    case Some(t) => Some([c] + t)
  }

  function MapText(f: Text -> Text, s: Option<Text>): Option<Text> {
    match s
    case None => None
    case Some(t) => Some(f(t))
  }

  /** Escaped backslashes, set aside as NUL characters. */
  function SetAside(s: Text): Text {
    Replace(s, [BACKSLASH, BACKSLASH], [NUL])
  }

  /** The four one-character escapes. */
  function ReplaceNamed(s: Text): Text {
    Replace(Replace(Replace(Replace(s, [BACKSLASH, QUOTE], [QUOTE]), [BACKSLASH, LOWER_N], [NEWLINE]),
                    [BACKSLASH, LOWER_R], [RETURN]),
            [BACKSLASH, LOWER_T], [TAB])
  }

  function PutBack(s: Text): Text {
    Replace(s, [NUL], [BACKSLASH])
  }

  function UnescapeLiteral(raw: Text): Option<Text> {
    MapText(PutBack, SubstituteNumeric(ReplaceNamed(SetAside(raw))))
  }

  // ── One pass ──────────────────────────────────────────────────────────────

  /** What the character after a backslash stands for. */
  function Named(c: nat): Option<nat> {
    if c == BACKSLASH || c == QUOTE then Some(c)
    else if c == LOWER_N then Some(NEWLINE)
    else if c == LOWER_R then Some(RETURN)
    else if c == LOWER_T then Some(TAB)
    else None
  }

  /** The length and the value of what comes next: an escape, or a character as it is
      (a backslash that begins no escape included). */
  function NextToken(s: Text): (nat, nat)
    requires s != []
  {
    if s[0] == BACKSLASH && |s| > 1 && Named(s[1]).Some? then (2, Named(s[1]).value)
    else if NumericEscape(s).Some? then NumericEscape(s).value
    else (1, s[0])
  }

  function Decode(s: Text): Option<Text> {
    if s == [] then Some([])
    else
      NumericEscapeLength(s);
      var (n, c) := NextToken(s);
      if c > MAX_CODE_POINT && n > 1 then None else Prepend(c, Decode(s[n..]))
  }

  // ── What the escapes stand for ────────────────────────────────────────────

  /** `c` is the hexadecimal digit `v`, in lower or in upper case. */
  predicate IsHexDigit(c: nat, v: nat)
    requires v < 16
  {
    || c == [48, 49, 50, 51, 52, 53, 54, 55, 56, 57, 97, 98, 99, 100, 101, 102][v]
    || c == [48, 49, 50, 51, 52, 53, 54, 55, 56, 57, 65, 66, 67, 68, 69, 70][v]
  }

  /** `digits` write `n` in the hexadecimal system. */
  predicate WritesHex(digits: Text, n: nat) {
    if digits == [] then n == 0
    else IsHexDigit(digits[|digits| - 1], n % 16) && WritesHex(digits[..|digits| - 1], n / 16)
  }

  lemma HexDigitIs(c: nat, v: nat)
    requires v < 16
    ensures HexValue(c) == Some(v) <==> IsHexDigit(c, v)
  {
  }

  lemma HexValueIsBelow16(c: nat)
    ensures HexValue(c).Some? ==> HexValue(c).value < 16
  {
  }

  lemma {:induction false} OneDigitMore(s: Text, k: nat, high: nat)
    requires k < |s|
    ensures BeginsWithHex(s, k + 1) <==> BeginsWithHex(s, k) && HexValue(s[k]).Some?
    ensures BeginsWithHex(s, k + 1) ==> ReadHex(s, k + 1, high) == ReadHex(s, k, high) * 16 + HexValue(s[k]).value
    decreases k
  {
    if k > 0 && HexValue(s[0]).Some? {
      OneDigitMore(s[1..], k - 1, high * 16 + HexValue(s[0]).value);
    }
  }

  lemma {:induction false} HexIs(s: Text, k: nat, n: nat)
    requires k <= |s|
    ensures BeginsWithHex(s, k) && ReadHex(s, k, 0) == n <==> WritesHex(s[..k], n)
  {
    if k > 0 {
      OneDigitMore(s, k - 1, 0);
      HexIs(s, k - 1, n / 16);
      assert s[..k][..k - 1] == s[..k - 1];
      HexDigitIs(s[k - 1], n % 16);
      HexValueIsBelow16(s[k - 1]);
    }
  }

  /** An escape of either kind is decoded to the code point that its digits write. */
  lemma NumericEscapesDecode(kind: nat, digits: Text, rest: Text, n: nat)
    requires (kind == 117 && |digits| == 4) || (kind == 85 && |digits| == 8)
    requires WritesHex(digits, n)
    ensures Decode([92, kind] + digits + rest) == if n <= 0x10FFFF then Prepend(n, Decode(rest)) else None
  {
    var s := [92, kind] + digits + rest;
    assert s[2..] == digits + rest && s[2..][..|digits|] == digits;
    HexIs(s[2..], |digits|, n);
    assert s[2 + |digits|..] == rest;
  }

  lemma NotHex(t: Text, k: nat)
    requires |t| >= k ==> forall n :: !WritesHex(t[..k], n)
    ensures !BeginsWithHex(t, k)
  {
    if BeginsWithHex(t, k) {
      HexPrefixLength(t, k);
      HexIs(t, k, ReadHex(t, k, 0));
    }
  }

  lemma NoNumericEscape(kind: nat, t: Text)
    requires kind == 117 && |t| >= 4 ==> forall n :: !WritesHex(t[..4], n)
    requires kind == 85 && |t| >= 8 ==> forall n :: !WritesHex(t[..8], n)
    ensures NumericEscape([92, kind] + t).None?
  {
    assert ([92, kind] + t)[2..] == t;
    if kind == 117 {
      NotHex(t, 4);
    }
    if kind == 85 {
      NotHex(t, 8);
    }
  }

  /** Without enough digits the backslash stays a backslash. */
  lemma OthersStay(kind: nat, t: Text)
    requires kind != 92 && kind != 34 && kind != 110 && kind != 114 && kind != 116
    requires kind == 117 && |t| >= 4 ==> forall n :: !WritesHex(t[..4], n)
    requires kind == 85 && |t| >= 8 ==> forall n :: !WritesHex(t[..8], n)
    ensures Decode([92, kind] + t) == Prepend(92, Decode([kind] + t))
  {
    var s := [92, kind] + t;
    NoNumericEscape(kind, t);
    assert s[1..] == [kind] + t;
    PlainDecodes(s);
  }

  lemma PlainDecodes(s: Text)
    requires s != [] && NextToken(s) == (1, s[0])
    ensures Decode(s) == Prepend(s[0], Decode(s[1..]))
  {
  }

  /** The named escapes. */
  lemma NamedEscapesDecode(s: Text)
    ensures Decode([92, 92] + s) == Prepend(92, Decode(s)) && Decode([92, 34] + s) == Prepend(34, Decode(s))
    ensures Decode([92, 110] + s) == Prepend(10, Decode(s)) && Decode([92, 114] + s) == Prepend(13, Decode(s))
    ensures Decode([92, 116] + s) == Prepend(9, Decode(s))
  {
    NamedEscapeDecodes(92, 92, s);
    NamedEscapeDecodes(34, 34, s);
    NamedEscapeDecodes(110, 10, s);
    NamedEscapeDecodes(114, 13, s);
    NamedEscapeDecodes(116, 9, s);
  }

  lemma NamedEscapeDecodes(e: nat, c: nat, s: Text)
    requires Named(e) == Some(c)
    ensures Decode([92, e] + s) == Prepend(c, Decode(s))
  {
    assert ([92, e] + s)[2..] == s;
  }

  /** Any other character stands for itself, and so does a backslash at the very end. */
  lemma CharactersStay(s: Text, c: nat)
    ensures c != 92 ==> Decode([c] + s) == Prepend(c, Decode(s))
    ensures Decode([92]) == Some([92])
  {
    assert ([c] + s)[1..] == s;
    var last: Text := [92];
    assert last[1..] == [] && [92] + last[1..] == last;
  }

  /** No NUL character, and no escape for code point 0. */
  predicate NulFree(s: Text) {
    s == [] || (NumericEscapeLength(s); NextToken(s).1 != NUL && NulFree(s[NextToken(s).0..]))
  }

  // ── How the replacements act on one token ─────────────────────────────────

  lemma ReplacePlain(pattern: Text, value: Text, c: nat, t: Text)
    requires pattern != [] && pattern[0] != c
    ensures Replace([c] + t, pattern, value) == [c] + Replace(t, pattern, value)
  {
    assert ([c] + t)[1..] == t;
  }

  lemma ReplaceHit(pattern: Text, value: Text, t: Text)
    requires pattern != []
    ensures Replace(pattern + t, pattern, value) == value + Replace(t, pattern, value)
  {
    assert (pattern + t)[|pattern|..] == t;
  }

  lemma ReplaceMiss(x: nat, value: Text, y: nat, t: Text)
    requires y != x && y != BACKSLASH
    ensures Replace([BACKSLASH, y] + t, [BACKSLASH, x], value) == [BACKSLASH, y] + Replace(t, [BACKSLASH, x], value)
  {
    var s := [BACKSLASH, y] + t;
    assert s[1] != x;
    assert s[1..] == [y] + t;
    ReplacePlain([BACKSLASH, x], value, y, t);
  }

  lemma ReplaceLone(x: nat, value: Text)
    ensures Replace([BACKSLASH], [BACKSLASH, x], value) == [BACKSLASH]
  {
  }

  /** The body after the named escapes, backslashes set aside. */
  function Prepared(s: Text): Text {
    ReplaceNamed(SetAside(s))
  }

  lemma NamedPlain(c: nat, t: Text)
    requires c != BACKSLASH
    ensures ReplaceNamed([c] + t) == [c] + ReplaceNamed(t)
  {
    var a := Replace(t, [BACKSLASH, QUOTE], [QUOTE]);
    var b := Replace(a, [BACKSLASH, LOWER_N], [NEWLINE]);
    var d := Replace(b, [BACKSLASH, LOWER_R], [RETURN]);
    ReplacePlain([BACKSLASH, QUOTE], [QUOTE], c, t);
    ReplacePlain([BACKSLASH, LOWER_N], [NEWLINE], c, a);
    ReplacePlain([BACKSLASH, LOWER_R], [RETURN], c, b);
    ReplacePlain([BACKSLASH, LOWER_T], [TAB], c, d);
  }

  lemma NamedOther(y: nat, t: Text)
    requires Named(y).None?
    ensures ReplaceNamed([BACKSLASH, y] + t) == [BACKSLASH, y] + ReplaceNamed(t)
  {
    var a := Replace(t, [BACKSLASH, QUOTE], [QUOTE]);
    var b := Replace(a, [BACKSLASH, LOWER_N], [NEWLINE]);
    var d := Replace(b, [BACKSLASH, LOWER_R], [RETURN]);
    ReplaceMiss(QUOTE, [QUOTE], y, t);
    ReplaceMiss(LOWER_N, [NEWLINE], y, a);
    ReplaceMiss(LOWER_R, [RETURN], y, b);
    ReplaceMiss(LOWER_T, [TAB], y, d);
  }

  lemma NamedHit(y: nat, t: Text)
    requires y != BACKSLASH && Named(y).Some?
    ensures ReplaceNamed([BACKSLASH, y] + t) == [Named(y).value] + ReplaceNamed(t)
  {
    var a := Replace(t, [BACKSLASH, QUOTE], [QUOTE]);
    var b := Replace(a, [BACKSLASH, LOWER_N], [NEWLINE]);
    var d := Replace(b, [BACKSLASH, LOWER_R], [RETURN]);
    if y == QUOTE {
      ReplaceHit([BACKSLASH, QUOTE], [QUOTE], t);
    } else {
      ReplaceMiss(QUOTE, [QUOTE], y, t);
    }
    if y == QUOTE {
      ReplacePlain([BACKSLASH, LOWER_N], [NEWLINE], QUOTE, a);
    } else if y == LOWER_N {
      ReplaceHit([BACKSLASH, LOWER_N], [NEWLINE], a);
    } else {
      ReplaceMiss(LOWER_N, [NEWLINE], y, a);
    }
    if y == QUOTE || y == LOWER_N {
      ReplacePlain([BACKSLASH, LOWER_R], [RETURN], Named(y).value, b);
    } else if y == LOWER_R {
      ReplaceHit([BACKSLASH, LOWER_R], [RETURN], b);
    } else {
      ReplaceMiss(LOWER_R, [RETURN], y, b);
    }
    if y == LOWER_T {
      ReplaceHit([BACKSLASH, LOWER_T], [TAB], d);
    } else {
      ReplacePlain([BACKSLASH, LOWER_T], [TAB], Named(y).value, d);
    }
  }

  lemma PreparedPlain(c: nat, t: Text)
    requires c != BACKSLASH
    ensures Prepared([c] + t) == [c] + Prepared(t)
  {
    ReplacePlain([BACKSLASH, BACKSLASH], [NUL], c, t);
    NamedPlain(c, SetAside(t));
  }

  lemma PreparedBackslash(t: Text)
    ensures Prepared([BACKSLASH, BACKSLASH] + t) == [NUL] + Prepared(t)
  {
    ReplaceHit([BACKSLASH, BACKSLASH], [NUL], t);
    NamedPlain(NUL, SetAside(t));
  }

  lemma PreparedNamed(y: nat, t: Text)
    requires y != BACKSLASH && Named(y).Some?
    ensures Prepared([BACKSLASH, y] + t) == [Named(y).value] + Prepared(t)
  {
    ReplaceMiss(BACKSLASH, [NUL], y, t);
    NamedHit(y, SetAside(t));
  }

  lemma PreparedOther(y: nat, t: Text)
    requires Named(y).None?
    ensures Prepared([BACKSLASH, y] + t) == [BACKSLASH, y] + Prepared(t)
  {
    ReplaceMiss(BACKSLASH, [NUL], y, t);
    NamedOther(y, SetAside(t));
  }

  lemma PreparedLone()
    ensures Prepared([BACKSLASH]) == [BACKSLASH]
  {
    ReplaceLone(BACKSLASH, [NUL]);
    ReplaceLone(QUOTE, [QUOTE]);
    ReplaceLone(LOWER_N, [NEWLINE]);
    ReplaceLone(LOWER_R, [RETURN]);
    ReplaceLone(LOWER_T, [TAB]);
  }

  /** Preparing neither makes nor breaks a run of hexadecimal digits. */
  lemma {:induction false} HexSurvives(t: Text, n: nat, high: nat)
    ensures BeginsWithHex(Prepared(t), n) <==> BeginsWithHex(t, n)
    ensures BeginsWithHex(t, n) ==>
              && n <= |t| && n <= |Prepared(t)|
              && ReadHex(Prepared(t), n, high) == ReadHex(t, n, high)
              && Prepared(t)[n..] == Prepared(t[n..])
    decreases n
  {
    if n > 0 && t != [] {
      if t[0] != BACKSLASH {
        assert t == [t[0]] + t[1..];
        PreparedPlain(t[0], t[1..]);
        assert Prepared(t)[1..] == Prepared(t[1..]);
        HexSurvives(t[1..], n - 1, if HexValue(t[0]).Some? then high * 16 + HexValue(t[0]).value else 0);
        if BeginsWithHex(t, n) {
          assert t[1..][n - 1..] == t[n..];
          assert Prepared(t)[1..][n - 1..] == Prepared(t)[n..];
        }
      } else {
        BackslashIsNoDigit(t);
      }
    }
  }

  lemma BackslashIsNoDigit(t: Text)
    requires t != [] && t[0] == BACKSLASH
    ensures Prepared(t) != [] && HexValue(Prepared(t)[0]).None?
  {
    if |t| == 1 {
      assert t == [BACKSLASH];
      PreparedLone();
    } else {
      var y, rest := t[1], t[2..];
      assert t == [BACKSLASH, y] + rest;
      if y == BACKSLASH {
        PreparedBackslash(rest);
      } else if Named(y).Some? {
        PreparedNamed(y, rest);
      } else {
        PreparedOther(y, rest);
      }
    }
  }

  // ── The chain equals the one pass ─────────────────────────────────────────

  lemma SubstitutePlain(c: nat, t: Text)
    requires c != BACKSLASH
    ensures SubstituteNumeric([c] + t) == Prepend(c, SubstituteNumeric(t))
  {
    assert ([c] + t)[1..] == t;
  }

  lemma SubstituteNone(y: nat, t: Text)
    requires y != BACKSLASH && NumericEscape([BACKSLASH, y] + t).None?
    ensures SubstituteNumeric([BACKSLASH, y] + t) == Prepend(BACKSLASH, Prepend(y, SubstituteNumeric(t)))
  {
    assert ([BACKSLASH, y] + t)[1..] == [y] + t;
    SubstitutePlain(y, t);
  }

  /** A numeric escape survives the preparation whole. */
  lemma EscapeSurvives(y: nat, t: Text)
    requires Named(y).None?
    ensures Prepared([BACKSLASH, y] + t) == [BACKSLASH, y] + Prepared(t)
    ensures NumericEscape([BACKSLASH, y] + Prepared(t)) == NumericEscape([BACKSLASH, y] + t)
    ensures NumericEscape([BACKSLASH, y] + t).Some? ==>
              var n := NumericEscape([BACKSLASH, y] + t).value.0;
              && 2 <= n <= |t| + 2 && n <= |Prepared(t)| + 2
              && ([BACKSLASH, y] + Prepared(t))[n..] == Prepared(([BACKSLASH, y] + t)[n..])
  {
    PreparedOther(y, t);
    HexSurvives(t, 4, 0);
    HexSurvives(t, 8, 0);
    var s, p := [BACKSLASH, y] + t, [BACKSLASH, y] + Prepared(t);
    assert s[2..] == t && p[2..] == Prepared(t);
    if NumericEscape(s).Some? {
      var n := NumericEscape(s).value.0;
      assert s[n..] == t[n - 2..] && p[n..] == Prepared(t)[n - 2..];
    }
  }

  function Shown(c: nat): nat {
    if c == NUL then BACKSLASH else c
  }

  lemma PutBackPrepended(c: nat, rest: Option<Text>)
    ensures MapText(PutBack, Prepend(c, rest)) == Prepend(Shown(c), MapText(PutBack, rest))
  {
    if rest.Some? {
      var t := rest.value;
      if c == NUL {
        ReplaceHit([NUL], [BACKSLASH], t);
      } else {
        ReplacePlain([NUL], [BACKSLASH], c, t);
      }
    }
  }

  /** What one pass makes of the first token, given what becomes of the rest. */
  function AfterToken(s: Text, rest: Option<Text>): Option<Text>
    requires s != []
  {
    var (n, c) := NextToken(s);
    if c > MAX_CODE_POINT && n > 1 then None else Prepend(Shown(c), rest)
  }

  lemma TokenLength(s: Text)
    requires s != []
    ensures 1 <= NextToken(s).0 <= |s|
  {
    NumericEscapeLength(s);
  }

  lemma ChainOnCharacter(c: nat, t: Text)
    requires c != BACKSLASH
    ensures UnescapeLiteral([c] + t) == Prepend(Shown(c), UnescapeLiteral(t))
  {
    PreparedPlain(c, t);
    SubstitutePlain(c, Prepared(t));
    PutBackPrepended(c, SubstituteNumeric(Prepared(t)));
  }

  lemma ChainOnNamed(y: nat, t: Text)
    requires Named(y).Some?
    ensures UnescapeLiteral([BACKSLASH, y] + t) == Prepend(Named(y).value, UnescapeLiteral(t))
  {
    var c := if y == BACKSLASH then NUL else Named(y).value;
    if y == BACKSLASH {
      PreparedBackslash(t);
    } else {
      PreparedNamed(y, t);
    }
    SubstitutePlain(c, Prepared(t));
    PutBackPrepended(c, SubstituteNumeric(Prepared(t)));
  }

  lemma ChainOnNumeric(y: nat, t: Text)
    requires NumericEscape([BACKSLASH, y] + t).Some?
    ensures NumericEscape([BACKSLASH, y] + t).value.0 <= |t| + 2
    ensures var (s, (n, c)) := ([BACKSLASH, y] + t, NumericEscape([BACKSLASH, y] + t).value);
            UnescapeLiteral(s) == if c > MAX_CODE_POINT then None else Prepend(Shown(c), UnescapeLiteral(s[n..]))
  {
    var s, p := [BACKSLASH, y] + t, [BACKSLASH, y] + Prepared(t);
    EscapeSurvives(y, t);
    var (n, c) := NumericEscape(s).value;
    if c <= MAX_CODE_POINT {
      assert SubstituteNumeric(p) == Prepend(c, SubstituteNumeric(p[n..]));
      PutBackPrepended(c, SubstituteNumeric(Prepared(s[n..])));
    }
  }

  lemma ChainOnOther(y: nat, t: Text)
    requires Named(y).None? && NumericEscape([BACKSLASH, y] + t).None?
    ensures UnescapeLiteral([BACKSLASH, y] + t) == Prepend(BACKSLASH, UnescapeLiteral([y] + t))
  {
    EscapeSurvives(y, t);
    SubstituteNone(y, Prepared(t));
    var rest := SubstituteNumeric(Prepared(t));
    PutBackPrepended(BACKSLASH, Prepend(y, rest));
    PutBackPrepended(y, rest);
    ChainOnCharacter(y, t);
  }

  /** The chain acts on the first token as one pass does. */
  lemma ChainStep(s: Text)
    requires s != []
    ensures 1 <= NextToken(s).0 <= |s|
    ensures UnescapeLiteral(s) == AfterToken(s, UnescapeLiteral(s[NextToken(s).0..]))
  {
    TokenLength(s);
    if s[0] != BACKSLASH {
      assert s == [s[0]] + s[1..];
      ChainOnCharacter(s[0], s[1..]);
    } else if |s| == 1 {
      assert s == [BACKSLASH] && s[1..] == [];
      PreparedLone();
    } else {
      var y, t := s[1], s[2..];
      assert s == [BACKSLASH, y] + t;
      if Named(y).Some? {
        ChainOnNamed(y, t);
      } else if NumericEscape(s).Some? {
        ChainOnNumeric(y, t);
      } else {
        ChainOnOther(y, t);
        assert s[1..] == [y] + t;
      }
    }
  }

  /** On every text, well-formed or not, the chain is the one-pass decoder up to NUL
      characters, which come out as backslashes. */
  lemma {:induction false} ChainDecodes(s: Text)
    ensures UnescapeLiteral(s) == MapText(PutBack, Decode(s))
    decreases |s|
  {
    if s != [] {
      ChainStep(s);
      var (n, c) := NextToken(s);
      ChainDecodes(s[n..]);
      PutBackPrepended(c, Decode(s[n..]));
    }
  }

  lemma {:induction false} PutBackChangesNulOnly(t: Text)
    ensures PutBack(t) == t <==> NUL !in t
  {
    if t != [] {
      var c, rest := t[0], t[1..];
      assert t == [c] + rest;
      PutBackChangesNulOnly(rest);
      if c == NUL {
        ReplaceHit([NUL], [BACKSLASH], rest);
      } else {
        ReplacePlain([NUL], [BACKSLASH], c, rest);
        assert PutBack(t)[1..] == PutBack(rest);
      }
    }
  }

  lemma {:induction false} NulFreeDecodes(s: Text)
    requires Decode(s).Some?
    ensures NulFree(s) <==> NUL !in Decode(s).value
    decreases |s|
  {
    if s != [] {
      TokenLength(s);
      NulFreeDecodes(s[NextToken(s).0..]);
    }
  }

  /** The chain of replacements equals the one-pass decoder exactly when the text has no
      NUL character and no escape for code point 0 (or an escape names no code point, and
      both fail). */
  lemma ChainEqualsOnePass(s: Text)
    ensures UnescapeLiteral(s) == Decode(s) <==> Decode(s).None? || NulFree(s)
  {
    ChainDecodes(s);
    if Decode(s).Some? {
      PutBackChangesNulOnly(Decode(s).value);
      NulFreeDecodes(s);
    }
  }

  // ── Unescaping undoes escaping ────────────────────────────────────────────

  /** The escapes a writer of literals uses. */
  function Escaped(c: nat): Text {
    if c == BACKSLASH then [BACKSLASH, BACKSLASH]
    else if c == QUOTE then [BACKSLASH, QUOTE]
    else if c == NEWLINE then [BACKSLASH, LOWER_N]
    else if c == RETURN then [BACKSLASH, LOWER_R]
    else if c == TAB then [BACKSLASH, LOWER_T]
    else [c]
  }

  function Escape(s: Text): Text {
    if s == [] then [] else Escaped(s[0]) + Escape(s[1..])
  }

  lemma {:induction false} DecodeUndoesEscape(s: Text)
    ensures Decode(Escape(s)) == Some(s)
  {
    if s != [] {
      var e, rest := Escaped(s[0]), Escape(s[1..]);
      DecodeUndoesEscape(s[1..]);
      assert (e + rest)[|e|..] == rest;
      assert NextToken(e + rest) == (|e|, s[0]);
      assert s == [s[0]] + s[1..];
    }
  }

  /** Unescaping an escaped text gives it back, exactly when it holds no NUL character. */
  lemma UnescapeUndoesEscape(s: Text)
    ensures UnescapeLiteral(Escape(s)) == Some(s) <==> NUL !in s
  {
    DecodeUndoesEscape(s);
    ChainDecodes(Escape(s));
    PutBackChangesNulOnly(s);
  }
}
