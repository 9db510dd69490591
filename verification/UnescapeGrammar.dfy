/** The unescaping chain against the whole grammar of N-Triples literals (section 7 of
    RDF 1.1 N-Triples), which has three more one-character escapes. */
module UnescapeGrammar {
  import opened Rdf
  import opened Unescape

  const LOWER_B: nat := 98
  const LOWER_F: nat := 102
  const APOSTROPHE: nat := 39
  const BACKSPACE: nat := 8
  const FORM_FEED: nat := 12

  /** The escapes the chain does not know. */
  function Unknown(c: nat): Option<nat> {
    if c == LOWER_B then Some(BACKSPACE)
    else if c == LOWER_F then Some(FORM_FEED)
    else if c == APOSTROPHE then Some(APOSTROPHE)
    else None
  }

  predicate BeginsUnknown(s: Text) {
    |s| > 1 && s[0] == BACKSLASH && Unknown(s[1]).Some?
  }

  /** The next escape of the grammar, or a character as it is. */
  function NextInGrammar(s: Text): (nat, nat)
    requires s != []
  {
    if BeginsUnknown(s) then (2, Unknown(s[1]).value) else NextToken(s)
  }

  lemma GrammarTokenLength(s: Text)
    requires s != []
    ensures 1 <= NextInGrammar(s).0 <= |s|
  {
    TokenLength(s);
  }

  /** One pass over the text, for all escapes of the grammar. */
  function DecodeGrammar(s: Text): Option<Text>
    decreases |s|
  {
    if s == [] then Some([])
    else
      GrammarTokenLength(s);
      var (n, c) := NextInGrammar(s);
      if c > MAX_CODE_POINT && n > 1 then None else Prepend(c, DecodeGrammar(s[n..]))
  }

  /** The escapes the grammar has beyond the chain's. */
  lemma UnknownEscapesInGrammar(s: Text)
    ensures DecodeGrammar([92, 98] + s) == Prepend(8, DecodeGrammar(s))
    ensures DecodeGrammar([92, 102] + s) == Prepend(12, DecodeGrammar(s))
    ensures DecodeGrammar([92, 39] + s) == Prepend(39, DecodeGrammar(s))
  {
    assert forall e: nat :: ([92, e] + s)[2..] == s;
  }

  /** How many escapes of the text the chain does not know. */
  function UnknownEscapes(s: Text): nat
    decreases |s|
  {
    if s == [] then 0
    else
      GrammarTokenLength(s);
      (if BeginsUnknown(s) then 1 else 0) + UnknownEscapes(s[NextInGrammar(s).0..])
  }

  /** The lenient decoder reads an unknown escape as two characters. */
  lemma UnknownIsTwoCharacters(s: Text)
    requires BeginsUnknown(s)
    ensures Decode(s) == Prepend(BACKSLASH, Prepend(s[1], Decode(s[2..])))
  {
    assert NextToken(s) == (1, BACKSLASH);
    assert s[1..][1..] == s[2..] && NextToken(s[1..]) == (1, s[1]);
  }

  /** Both decoders fail alike; where they do not, every unknown escape is one character
      too many, and without any the results are the same. */
  lemma {:induction false} DecodersDiffer(s: Text)
    ensures Decode(s).Some? <==> DecodeGrammar(s).Some?
    ensures Decode(s).Some? ==> |Decode(s).value| == |DecodeGrammar(s).value| + UnknownEscapes(s)
    ensures Decode(s).Some? && UnknownEscapes(s) == 0 ==> Decode(s) == DecodeGrammar(s)
    decreases |s|
  {
    if s != [] {
      GrammarTokenLength(s);
      DecodersDiffer(s[NextInGrammar(s).0..]);
      if BeginsUnknown(s) {
        UnknownIsTwoCharacters(s);
      }
    }
  }

  lemma {:induction false} PutBackKeepsLength(t: Text)
    ensures |PutBack(t)| == |t|
  {
    if t != [] {
      PutBackKeepsLength(t[1..]);
    }
  }

  /** The chain decodes the grammar exactly on the texts that have none of the three
      escapes, no NUL character and no escape for code point 0 (and where both fail, for
      an escape that names no code point). */
  lemma ChainDecodesGrammarExactlyWhen(s: Text)
    ensures UnescapeLiteral(s) == DecodeGrammar(s) <==> DecodeGrammar(s).None? || (UnknownEscapes(s) == 0 && NulFree(s))
  {
    DecodersDiffer(s);
    ChainDecodes(s);
    ChainEqualsOnePass(s);
    if Decode(s).Some? {
      PutBackKeepsLength(Decode(s).value);
    }
  }

  /** Each of the three escapes stays as it is. */
  lemma UnknownEscapesAreLeft(c: nat)
    requires Unknown(c).Some?
    ensures DecodeGrammar([BACKSLASH, c]) == Some([Unknown(c).value])
    ensures UnescapeLiteral([BACKSLASH, c]) == Some([BACKSLASH, c])
  {
    var s: Text := [BACKSLASH, c];
    var rest := s[2..];
    assert rest == [] && [Unknown(c).value] + [] == [Unknown(c).value] && [s[0]] + ([s[1]] + []) == s;
    assert NextInGrammar(s) == (2, Unknown(c).value) && DecodeGrammar(rest) == Some([]);
    UnknownIsTwoCharacters(s);
    assert Decode(rest) == Some([]);
    assert s[1..] == [c] && s[1..][1..] == [] && NextToken(s[1..]) == (1, c);
    assert NulFree(s[1..]) && NulFree(s);
    ChainEqualsOnePass(s);
  }
}
